# Verified model of ingest-srv

This Dafny 4.11 project models the ingest service and proves what its two state machines keep.

* **Control plane.** Data sources, crawl targets, dryrun results and the crawl-mode audit log.
  `ControlPlane.dfy` says, for each of the twenty operations, what it reads, when it is refused and which
  writes it issues, in order. A *call* is an operation together with the number of its writes that reach
  the database, so every partial failure is a call. Theorems quantify over all runs of calls from an empty
  database (`Invariants`, `ActiveTargets`, `Lifecycle`, `Audit`, `Dryruns`). The operations themselves are
  imperative methods over a mutable store (`DatasourceUseCase.dfy`, `DryrunUseCase.dfy`, `Readiness.dfy`),
  each proved to issue exactly the writes of its plan, under every loss of writes. `Outcomes.dfy` says of each
  operation, from the rows alone and without its plan, when it takes effect and what the rows are afterwards.
* **Crawl runtime.** The scheduler tick, the fan-out of one dispatch and the completion handler. Each call
  that leaves the use case is one step; before it, any control-plane calls may run and it may fail, with or
  without having taken effect (`Runtime`, `Fanout`, `Tick`, `StaleSpecs`, `RateBound`). `TurnLaws.dfy` reads what a
  turn or a dispatch did off the calls it made. Completions are a machine of any number of concurrent handlers with
  crashes and lost acknowledgements (`Completion`), which the handler's code refines (`Consumer`); `Handled.dfy` gives
  the outcome of each completion that is handled alone, for all answers of its calls.
* **Smaller cores.** Effective interval, value normalisation, dispatch specs, query caches, Facebook
  flattening, transcript normalisation, chunking.

`dafny verify dfyconfig.toml` checks everything.

## How the store is modelled

Reads answer from the current rows. The contract of each write is taken from the Postgres repositories and
the CHECK constraints of the schema (`migrations/001_create_schema_ingest_v1.sql`); these are the assumptions:

* a write of the control plane takes effect as one step or not at all. This is an idealisation: `UpdateTarget` and
  `UpdateDataSource` find the row and then write all its columns back, in two statements
  (internal/datasource/repository/postgre/target.go:112-151, internal/datasource/repository/postgre/datasource.go:199-270), so a concurrent write can be
  undone. `TargetRaces` has the two statements apart, for the columns `status` and `is_active`, and `RateBound` for
  `next_crawl_at`;
* "only non-empty fields are applied" (`SourcePatch`, `TargetPatch`);
* deleted sources are invisible to the datasource use case, flushed targets to target listings;
* a claim updates the row only if the target is active and due and its source is an ACTIVE crawl source;
* a raw batch is unique per source and exact batch id, and its insert commits together with the update of its external task;
* a publish that reports success was delivered; one that reports an error may have been;
* `IsDryrunRequired`, the URL parser and the sqlboiler column inference are arbitrary functions, UUIDs are fresh.

## Where the code and its documentation differ

The model follows the code.

* `ARCHIVED` is documented as final (README.md:255). A material target update brings an archived source
  back to PENDING, and nothing else does (`LifecycleTheorems.ArchivedLeaves`, `Witnesses.ArchivedComesBack`).
* The lifecycle diagram has transitions to FAILED and a COMPLETED state (README.md:309-321). No operation ever
  reaches either (`LifecycleTheorems.NeverFailedOrCompleted`); READY is also reached by activating a target.
* Changing the config is documented to clear the last dryrun result and to ask for validation again
  (README.md:236). Both stay as they were (`DocumentedRules.ConfigUpdateKeepsVerdict`).
* The category is documented to be inferred from the type (README.md:234). It is inferred for validation only:
  a creation without a category changes nothing (`DocumentedRules.CategoryIsNotInferred`).
* A target without an interval is documented to inherit it from its source (README.md:244). It gets the
  column default, 11 minutes (`DocumentedRules.IntervalIsNotInherited`).

## Where a promise fails, and when

* Deleting a target does not look at the source, so it can strip an ACTIVE source of its last active target,
  unlike deactivating it (`ActiveTargetTheorems.DeleteServed`, `Witnesses.DeletionStrips`).
* Overlapping operations can strip it too: two deactivations that both count two active targets, or an update of
  other columns that writes back a target as it was before it became active
  (`TargetRaces.OverlappingDeactivationsStrip`, `TargetRaces.StaleTargetUpdateStrips`). A run serves the source
  throughout exactly when every write would still pass its guard right before it (`TargetRaces.RunServesExactly`);
  operations that do not overlap a write are safe (`TargetRaces.ApartRunsServe`).
* The crawl rate can exceed its bound when something clears or sets back the column of a kept claim: a late release of
  another turn, since a release is not tied to the claim it gives back; the cancellation that a project pause issues,
  also with a single scheduler instance; or an update of the target row that read the column before the claim
  (`RateBound.LateGiveBackBreaksTheBound`, `RateBound.PauseAndResumeBreakTheBound`,
  `RateBound.StaleRewriteBreaksTheBound`). Nothing else breaks it: `RateBound.SpacedUnlessDisturbed`,
  `RateBound.DisturbancesExactly`, and for one instance `RateBound.OneInstanceIsBounded`.
* A claim can be released although messages of it went out (`TickTheorems.ReleasedAlthoughSent`).
* The existence check of raw batches trims the batch id, the insert does not. A run stores a batch twice exactly
  when it inserts a new exact id whose trimmed form is stored (`BatchTheorems.RunKeepsNoTwinsExactly`); trimmed ids
  are enough to prevent it (`BatchTheorems.TrimmedDeliveriesHaveNoTwins`).
* A stored batch is never parsed exactly when its insert was committed but not acknowledged, when its handler
  crashed between the insert and the parse, or when its task cannot be parsed (`BatchTheorems.UnparsedExactly`).
* Overlapping dryrun triggers of one target can put it in flight twice (`DryrunRaces.RunKeepsOneFlightExactly`).
* A finished dryrun result can be rewritten: by the later of two overlapping completions, or by its own trigger, when a
  publish was delivered and reported an error all the same. Finished results stay as they were throughout a run exactly
  when all verdicts on each result are equal (`DryrunRaces.RunKeepsFinishedExactly`,
  `DryrunRaces.OverlappingCompletionsRewrite`, `DryrunRaces.FailedDispatchRewrites`).
* A late success can turn an ended job RUNNING again beside the running job of its target, exactly when another task of
  the job is open, none is lost, and none is missing (`Jobs.RunKeepsOneRunningExactly`, `Jobs.LateCompletionRevives`).
* A row stored by a creation that reports an error is neither published nor marked (`Fanout.SettledExactly`).

## Model

| member | source | states |
|---|---|---|
| ActiveTargetTheorems.CallServes | internal/datasource/usecase/target.go:117-355 | From a state where every ACTIVE crawl source has an active target, one call of any operation, complete or interrupted, keeps that exactly unless it strips a source of its last active target: a deletion of that target, or a material update that stops before its source is marked PENDING |
| ActiveTargetTheorems.RunServes | internal/datasource/usecase/helpers.go:433-460 | In every run without a stripping call every ACTIVE crawl source has an active target |
| ActiveTargetTheorems.DeleteServed | internal/datasource/usecase/target.go:313-355 | Deleting a target keeps the invariant exactly when it is not the last active target of an ACTIVE crawl source |
| ActiveTargetTheorems.UpdateServed | internal/datasource/usecase/target.go:117-181 | A target update keeps it exactly when the change is not material, the target is not the last active one, or the source is marked PENDING as well |
| ActiveTargetTheorems.DeactivateServed | internal/datasource/usecase/target.go:262-310 | Deactivation never takes the last active target from an ACTIVE source |
| ActiveTargetTheorems.ActivationCallServes | internal/datasource/usecase/helpers.go:482-535 | Single-source and project-wide activation and resumption only activate crawl sources that have an active target |
| Witnesses.SetupRuns | internal/datasource/usecase/target.go:29-259 | Four calls lead from the empty database to an ACTIVE crawl source with one active target |
| Witnesses.DeletionStrips | internal/datasource/usecase/target.go:313-355 | A run that ends with an ACTIVE crawl source without an active target, by a deletion |
| Witnesses.InterruptedUpdateStrips | internal/datasource/usecase/target.go:160-178 | Another one, by a material update whose second write is lost |
| LifecycleTheorems.CallLeads | internal/datasource/usecase/datasource_lifecycle.go:15-116 | The complete table of status changes: each operation, interrupted or not, moves any source only along its own transitions |
| LifecycleTheorems.ArchivedLeaves | internal/datasource/usecase/helpers.go:168-188 | An ARCHIVED source leaves that status exactly through an accepted material target update that reaches its source row |
| Witnesses.ArchivedComesBack | internal/datasource/usecase/helpers.go:168-188 | A run with an archived source and a call that brings it back to PENDING |
| LifecycleTheorems.StatusPredecessors | internal/datasource/usecase/datasource_lifecycle.go:29-109 | ACTIVE is entered only from READY or PAUSED and PAUSED only from ACTIVE, also at creation |
| LifecycleTheorems.ActiveWasReady | internal/datasource/usecase/datasource_lifecycle.go:15-48 | A source that is ACTIVE or PAUSED was READY at some earlier point of the run |
| LifecycleTheorems.NeverFailedOrCompleted | internal/model/ingest_types.go:123-134 | No run brings a source to FAILED or COMPLETED |
| LifecycleTheorems.ActiveFreezesSettings | internal/datasource/usecase/datasource.go:125-145 | No call changes config, mapping rules or interval of a source that is ACTIVE before it |
| LifecycleTheorems.ActiveStretchFreezesSettings | internal/datasource/usecase/datasource.go:105-158 | Along any stretch of calls that finds a source ACTIVE its settings stay what they were |
| DocumentedRules.ConfigUpdateKeepsVerdict | internal/datasource/usecase/datasource.go:125-145 | Updating a source leaves the status and the last dryrun result of every source as they were |
| DocumentedRules.CategoryIsNotInferred | internal/datasource/usecase/datasource.go:26-47 | A creation that leaves the category out changes nothing |
| DocumentedRules.IntervalIsNotInherited | internal/datasource/usecase/target.go:55-66 | A target created without an interval gets 11 minutes whatever its source has |
| OutcomeTheorems.CreateSourceIs | internal/datasource/usecase/datasource.go:15-50 | A creation adds the PENDING row with these columns exactly for a project, a nonblank name, a category that fits the type and, for crawl sources, a mode and a positive interval; else nothing changes |
| OutcomeTheorems.UpdateSourceIs | internal/datasource/usecase/datasource.go:105-158 | An update changes the nonblank columns given, and config or mapping rules reset the dryrun status; refused exactly for a bad interval, a missing source, a running dryrun, and for settings of an ACTIVE source |
| OutcomeTheorems.ArchiveSourceIs | internal/datasource/usecase/datasource.go:161-192 | A source is archived exactly when it is there and no dryrun of it runs |
| OutcomeTheorems.DeleteSourceIs | internal/datasource/usecase/datasource.go:195-226 | It is deleted exactly when it is archived as well |
| OutcomeTheorems.StartIs | internal/datasource/usecase/datasource_lifecycle.go:15-116 | A READY source is activated, and a PAUSED one resumed, exactly when it has a mode, an interval and active targets that each have the evidence they need, or is a webhook with id and secret |
| OutcomeTheorems.PauseIs | internal/datasource/usecase/datasource_lifecycle.go:51-79 | Exactly an ACTIVE source is paused |
| OutcomeTheorems.CrawlModeIs | internal/datasource/usecase/datasource_lifecycle.go:119-178 | Exactly a READY, ACTIVE or PAUSED crawl source with a mode and an interval gets the mode, and then the audit row from its old one |
| OutcomeTheorems.ProjectActivateIs | internal/datasource/usecase/project_lifecycle.go:154-190 | The READY sources of a project become ACTIVE exactly when some READY or ACTIVE source is confirmed or crawlable and each such crawl source is crawlable |
| OutcomeTheorems.ProjectPauseIs | internal/datasource/usecase/project_lifecycle.go:193-213 | The ACTIVE sources of a project become PAUSED |
| OutcomeTheorems.ProjectResumeIs | internal/datasource/usecase/project_lifecycle.go:216-252 | The PAUSED ones become ACTIVE under the like condition, unless one is a webhook without id or secret |
| OutcomeTheorems.ProjectCrawlModeIs | internal/datasource/repository/postgre/crawl_mode_change.go:62-220 | Exactly the unlocked sources of the project that may change mode and have another one get the mode and one audit row each |
| OutcomeTheorems.CreateTargetIs | internal/datasource/usecase/target.go:29-73 | An inactive target with prepared values is added exactly under a live, unarchived crawl source, for values that prepare and an interval that is not negative |
| OutcomeTheorems.UpdateTargetIs | internal/datasource/usecase/target.go:117-181 | An update writes the given columns; if interval or metadata differ from the stored ones it also disables the target and sends its source to PENDING, and otherwise it leaves both alone |
| OutcomeTheorems.ActivateTargetIs | internal/datasource/usecase/target.go:184-259 | A target is enabled exactly when it needs no dryrun or its newest result is usable; a PENDING source whose target needs none becomes READY |
| OutcomeTheorems.DeactivateTargetIs | internal/datasource/usecase/target.go:262-310 | It is disabled exactly when no dryrun of it runs, its source is there and, if ACTIVE, has two active targets |
| OutcomeTheorems.DeleteTargetIs | internal/datasource/usecase/target.go:313-355 | It becomes inactive and flushed exactly when no dryrun of it runs and analytics have hidden it, whatever its source is |
| OutcomeTheorems.TriggerIs | internal/dryrun/usecase/usecase.go:16-114 | A trigger adds a RUNNING result, marks its source RUNNING and PENDING, and fails both when the publish failed, exactly for a waiting crawl source, an idle target of it and values that can be sent |
| OutcomeTheorems.VerdictIs | internal/dryrun/repository/postgre/dryrun.go:109-193 | The verdict on an unfinished result finishes it and is recorded on its source, which becomes READY after SUCCESS or WARNING and PENDING after FAILED if it was waiting; a usable one enables the target |
| OutcomeTheorems.RepeatIs | internal/dryrun/usecase/consumer.go:29-38 | A completion of a finished result activates its target once more if the result is usable, and does nothing else |
| OutcomeTheorems.StrayIs | internal/dryrun/usecase/consumer.go:20-28 | One of an unknown job changes nothing |
| OutcomeTheorems.ApplyResultIs | internal/datasource/usecase/dryrun.go:42-73 | A verdict applied to a live source is recorded and moves a waiting one to READY or PENDING like a completion |
| AuditTheorems.CallReplays | internal/datasource/usecase/datasource_lifecycle.go:119-178 | A call extends the audit chain of a source from its old crawl mode to its new one exactly unless it changes the mode and loses the audit row |
| AuditTheorems.AuditReplays | internal/datasource/usecase/project_lifecycle.go:255-297 | In every run that loses no audit row, the rows of a source lead from the mode it was created with to its current mode |
| AuditTheorems.ChainMeets | internal/datasource/repository/postgre/crawl_mode_change.go:19-60 | In such a chain each row starts from the mode the one before it ended in |
| AuditTheorems.FlipReplays | internal/datasource/repository/postgre/crawl_mode_change.go:62-220 | The bulk change writes one row for each source it flips, and none for others |
| Witnesses.CutModeChangeLosesItsRow | internal/datasource/usecase/datasource_lifecycle.go:146-175 | A run and a mode change cut after its first write, after which the audit rows do not lead to the mode |
| DryrunTheorems.OneFlight | internal/dryrun/usecase/usecase.go:16-114 | In every run of operations that do not overlap, at most one result of a target is RUNNING, it is the newest, and results belong to crawl sources only |
| DryrunTheorems.RunKeepsFlights | internal/dryrun/usecase/consumer.go:14-102 | Over every run of operations that do not overlap, a finished result is never rewritten and every result keeps its identity |
| DryrunTheorems.LatestDecidesRunning | internal/datasource/usecase/helpers.go:257-296 | Looking at the newest result only, as the guards do, decides whether any result of a target is running |
| DryrunTheorems.TriggerKeeps | internal/dryrun/usecase/usecase.go:64-114 | A trigger, interrupted after any of its writes, starts no second flight and rewrites no other result |
| DryrunTheorems.CompleteKeeps | internal/dryrun/usecase/consumer.go:31-101 | A completion finishes at most the unfinished result of its job |
| DryrunRaces.RunKeepsOneFlightExactly | internal/dryrun/usecase/usecase.go:42-86 | With the guard and the insert of a trigger as separate statements, each target has at most one RUNNING result at every point of a run exactly when no insert comes while its target runs |
| DryrunRaces.SerialTriggerIsNotLate | internal/dryrun/usecase/usecase.go:42-86 | A guard followed at once by its insert is never late |
| DryrunRaces.OverlappingTriggersFlyTwice | internal/dryrun/usecase/usecase.go:42-86 | Two overlapping triggers put a target in flight twice |
| DryrunRaces.GuardIsTheOperations | internal/datasource/usecase/helpers.go:257-278 | The guard of the statement-level trigger is that of the whole operation |
| DryrunRaces.RunKeepsFinishedExactly | internal/dryrun/repository/postgre/dryrun.go:109-193 | With the read and the write of a completion, and the publish and the failing of a trigger, as separate statements, finished results stay as they were at every step of a run exactly when, for each result, all verdicts of the run on it are equal |
| DryrunRaces.RowIsVerdict | internal/dryrun/usecase/consumer.go:31-101 | In every run a result is finished exactly when there is a verdict on it, and carries the last one |
| DryrunRaces.SerialRunsAreFinal | internal/dryrun/usecase/consumer.go:20-101 | When every completion writes right after its read and every trigger fails right after its insert, no finished result is ever rewritten |
| DryrunRaces.OverlappingCompletionsRewrite | internal/dryrun/usecase/consumer.go:20-101 | A run from the start with two overlapping completions, the later of which rewrites the result |
| DryrunRaces.FailedDispatchRewrites | internal/dryrun/usecase/usecase.go:88-114 | A run from the start in which a trigger is told that its publish failed and fails the result after its completion |
| TargetRaces.StepServesExactly | internal/datasource/repository/postgre/target.go:112-151 | With guards, finding a row and writing it back as separate statements, one statement leaves an ACTIVE source without an active target exactly when it is a write whose guard, asked right before it, refuses |
| TargetRaces.RunServesExactly | internal/datasource/usecase/helpers.go:433-460 | An ACTIVE source has an active target at every point of a run exactly when no write of it is of that kind |
| TargetRaces.ApartRunsServe | internal/datasource/usecase/target.go:262-310 | When no other write comes between the guard of an operation and its write, and no target is disabled without a guard, the source is served throughout |
| TargetRaces.GuardsAreTheOperations | internal/datasource/usecase/helpers.go:433-535 | The guards of the statement-level machine pass exactly when the whole operations are accepted, where no dryrun is required |
| TargetRaces.OverlappingDeactivationsStrip | internal/datasource/usecase/target.go:284-300 | A run from the start in which two guarded deactivations leave an ACTIVE source without an active target |
| TargetRaces.StaleTargetUpdateStrips | internal/datasource/repository/postgre/target.go:112-151 | A run from the start without any disabling operation in which a stale write of other columns does |
| Invariants.RunKeepsKinds | internal/datasource/usecase/target.go:139-165 | No call ever changes a source's type, category or project, or a target's type, owner or values |
| Invariants.RunKeepsRowsOk | migrations/001_create_schema_ingest_v1.sql:136-296 | Every reachable row satisfies the schema's checks; target values are non-empty and normal |
| Invariants.ReachableIntervalIsDefined | internal/execution/usecase/helpers.go:581-616 | In every reachable state computing the effective interval of a crawl source's target takes no error branch and gives 1 to 1440 minutes |
| Invariants.AcceptedValuesExactly | internal/datasource/usecase/target.go:139-149 | In every reachable state a submitted value list is accepted exactly when it prepares to the stored list, and the stored list itself always is |
| Values.NormalizeTargetValues | internal/datasource/usecase/helpers.go:84-101 | The loop with its seen set computes Normalized |
| Values.NormalizedMembers | internal/datasource/usecase/helpers.go:84-101 | Exactly the non-blank trimmed inputs survive |
| Values.NormalizedDistinct | internal/datasource/usecase/helpers.go:92-97 | Deduplicated values are pairwise different |
| Values.NormalizedKeepsOrder | internal/datasource/usecase/helpers.go:84-101 | Deduplicated values keep the order of their first occurrences |
| Values.NormalizeIdempotent | internal/datasource/usecase/helpers.go:84-101 | Normalising twice is normalising once |
| Values.SlicesEqualOnNormal | internal/datasource/usecase/helpers.go:127-137 | On stored lists the immutability check is list equality |
| Values.PreparedExactly | internal/datasource/usecase/helpers.go:103-125 | Values prepare exactly when one is not blank and, unless they are keywords, each that is not blank is a URL; then to the normalised list |
| Values.StoredKeywordsAreDispatched | internal/execution/usecase/helpers.go:618-628 | Extracting keywords from a stored keyword list gives that list |
| Readiness.GetActivationReadiness | internal/datasource/usecase/project_lifecycle.go:14-151 | The nested loops decide CanProceed, each counter is the size of the set it is named after, and the report lists exactly the findings that hold |
| Readiness.InspectTargets | internal/datasource/usecase/project_lifecycle.go:82-126 | The inner loop counts the active targets, those without a result and those whose newest result failed, and lists exactly the latter two |
| Readiness.InspectSource | internal/datasource/usecase/project_lifecycle.go:49-143 | One source adds to the counters and the report what its status, category, onboarding and targets say |
| Readiness.EverySourceIsJudged | internal/datasource/usecase/project_lifecycle.go:49-143 | Each source of the project is exactly one of eligible, reported for its status, reported as unconfirmed, or reported for its targets |
| Readiness.ProceedsUnlessReported | internal/datasource/usecase/project_lifecycle.go:129-150 | A project proceeds exactly when some source is eligible and the report holds no finding about targets |
| Readiness.ActivateTwice | internal/datasource/usecase/project_lifecycle.go:154-190 | After a project activation readiness passes again and a second activation changes no source |
| DatasourceUseCases.DatasourceUseCase.CheckProject | internal/datasource/usecase/helpers.go:384-401 | Readiness followed by the second eligibility check succeeds exactly when CanProceed holds: the second check never refuses |
| DatasourceUseCases.DatasourceUseCase.EnsureRuntimePrerequisites | internal/datasource/usecase/helpers.go:482-535 | The loop with its early exit decides the runtime prerequisites |
| DatasourceUseCases.DatasourceUseCase.SomeTargetDryrunRunning | internal/datasource/usecase/helpers.go:280-296 | The loop decides whether a listed target has a running dryrun |
| DatasourceUseCases.DatasourceUseCase.PrepareTargetValues | internal/datasource/usecase/helpers.go:103-125 | Preparing gives the normalised values, or refuses empty lists and non-URLs |
| DatasourceUseCases.DatasourceUseCase.Create | internal/datasource/usecase/datasource.go:15-50 | Creates a PENDING row or is refused, as planned; each error is given exactly by its guard |
| DatasourceUseCases.DatasourceUseCase.Update | internal/datasource/usecase/datasource.go:105-158 | Its guards and patch are those of the plan; refused while a dryrun runs or for runtime fields of an ACTIVE source; each error is given exactly by its guard |
| DatasourceUseCases.DatasourceUseCase.Archive | internal/datasource/usecase/datasource.go:161-192 | Archives once; refused while a dryrun runs; each error is given exactly by its guard |
| DatasourceUseCases.DatasourceUseCase.Delete | internal/datasource/usecase/datasource.go:195-226 | Deletes archived sources only; each error is given exactly by its guard |
| DatasourceUseCases.DatasourceUseCase.ActivateDataSource | internal/datasource/usecase/datasource_lifecycle.go:15-48 | READY to ACTIVE when the prerequisites hold; each error is given exactly by its guard |
| DatasourceUseCases.DatasourceUseCase.PauseDataSource | internal/datasource/usecase/datasource_lifecycle.go:51-79 | ACTIVE to PAUSED; each error is given exactly by its guard |
| DatasourceUseCases.DatasourceUseCase.ResumeDataSource | internal/datasource/usecase/datasource_lifecycle.go:82-116 | PAUSED to ACTIVE when the prerequisites hold; each error is given exactly by its guard |
| DatasourceUseCases.DatasourceUseCase.UpdateCrawlMode | internal/datasource/usecase/datasource_lifecycle.go:119-178 | Changes the mode, then writes its audit row; the two writes can come apart; each error is given exactly by its guard |
| DatasourceUseCases.DatasourceUseCase.Activate | internal/datasource/usecase/project_lifecycle.go:154-190 | Moves all READY sources of a project that can proceed |
| DatasourceUseCases.DatasourceUseCase.Pause | internal/datasource/usecase/project_lifecycle.go:193-213 | Moves all ACTIVE sources of a project, also when cancelling its jobs fails afterwards |
| DatasourceUseCases.DatasourceUseCase.Resume | internal/datasource/usecase/project_lifecycle.go:216-252 | Moves all PAUSED sources of a project that can proceed |
| DatasourceUseCases.DatasourceUseCase.UpdateProjectCrawlMode | internal/datasource/usecase/project_lifecycle.go:255-297 | Flips the eligible unlocked sources; the affected count is the number of sources whose mode differs afterwards, and the no-op reason tells no eligible source from all in the mode already and from locked ones |
| DatasourceUseCases.DatasourceUseCase.CreateTarget | internal/datasource/usecase/target.go:29-73 | Inserts an inactive target with prepared values under a live, unarchived crawl source; each error is given exactly by its guard |
| DatasourceUseCases.DatasourceUseCase.UpdateTarget | internal/datasource/usecase/target.go:117-181 | Updates the row, and after a material change marks the source PENDING; NotFound is reported after the row update when the source is gone; each error is given exactly by its guard |
| DatasourceUseCases.DatasourceUseCase.ActivateTarget | internal/datasource/usecase/target.go:184-259 | Enables the target; promoting a PENDING source is best effort; which refusal gives which error |
| DatasourceUseCases.DatasourceUseCase.DeactivateTarget | internal/datasource/usecase/target.go:262-310 | Disables the target unless it is the last active one of an ACTIVE source; each error is given exactly by its guard |
| DatasourceUseCases.DatasourceUseCase.DeleteTarget | internal/datasource/usecase/target.go:313-355 | Flushes the target without looking at its source; each error is given exactly by its guard |
| DatasourceUseCases.DatasourceUseCase.MarkDryrunRunning | internal/datasource/usecase/dryrun.go:13-39 | Marks a live source RUNNING, and PENDING when it was waiting; NotFound for one that is gone |
| DatasourceUseCases.DatasourceUseCase.ApplyDryrunResult | internal/datasource/usecase/dryrun.go:42-73 | Records the verdict; a waiting source becomes READY unless it failed |
| DryrunUseCases.DryrunUseCase.Trigger | internal/dryrun/usecase/usecase.go:16-114 | Inserts, marks and publishes in this order, stops at the first write that fails, and fails the result it could not publish; succeeds exactly when published and all writes were accepted, and reports a refusal exactly when nothing is planned |
| DryrunUseCases.DryrunUseCase.HandleCompletion | internal/dryrun/usecase/consumer.go:14-102 | Finishes an unfinished result and reports whether that was accepted; a duplicate only activates the target again and fails exactly when that activation meets a running required dryrun or a lost write |
| DryrunUseCases.DryrunUseCase.HasMapping | internal/dryrun/usecase/helpers.go:154-220 | The combinations for which a dryrun can be dispatched |
| Interval.ComputeEffectiveInterval | internal/execution/usecase/helpers.go:581-603 | Fails exactly without a mode or with a non-positive interval, and otherwise gives the whole-number form |
| Interval.RoundedProduct | internal/execution/usecase/helpers.go:594-602 | Rounding the real product and clamping equals the clamp of m, 5m or (m+2)/5 |
| Interval.FloatGivesEffectiveMinutes | internal/execution/usecase/helpers.go:594-602 | For every multiplier and product that float64 may give, on the whole range of the 32-bit column, rounding and clamping give the whole-number form |
| Interval.NearRounds | internal/execution/usecase/helpers.go:594-594 | A value less than a tenth off the product rounds as the product does |
| Interval.CrisisNeverTies | internal/execution/types.go:83-87 | Rounding never meets a tie |
| Interval.IntervalOrder | internal/execution/usecase/helpers.go:581-616 | Monotone in the target interval, within 1 to 1440, and CRISIS <= NORMAL <= SLEEP |
| Interval.IntervalIs | internal/execution/usecase/helpers.go:581-616 | NORMAL keeps the interval, SLEEP takes five times it and CRISIS the nearest number to a fifth, between 1 and 1440 |
| Specs.BuildDispatchSpecs | internal/execution/usecase/helpers.go:78-202 | Answers exactly the specs, or the refusal, of the source type and target type, and never succeeds with an empty list |
| Specs.BuildKeywordSpecs | internal/execution/usecase/helpers.go:80-121 | One spec for each non-blank keyword, in order |
| Specs.BuildPageSpecs | internal/execution/usecase/helpers.go:329-361 | One page spec for each value, exactly when each value resolves to a numeric page id |
| Specs.BuildProfileSpecs | internal/execution/usecase/helpers.go:363-404 | One profile spec for each value, exactly when each value resolves to a user name or a sec uid |
| Specs.BuildsIsDetermined | internal/execution/usecase/helpers.go:78-202 | The specification leaves one answer only |
| Specs.KeywordSpecsAsk | internal/execution/usecase/helpers.go:78-202 | A keyword spec goes to the queue of its platform and carries its keyword and the limits of the service |
| Specs.ProfileSpecsAsk | internal/execution/usecase/helpers.go:78-202 | A profile spec names a Facebook page by a numeric id, or a TikTok user in exactly one way |
| Specs.PostSpecAsks | internal/execution/usecase/helpers.go:78-202 | A post target gives one spec with the parse ids of its metadata |
| Specs.PageIdIs | internal/execution/usecase/helpers.go:329-361 | The page id is the listed one, else the common one, else that of the URL, and must have five digits or more and nothing else |
| Specs.UserIs | internal/execution/usecase/helpers.go:363-404 | The user is the listed one, else the common one, and that of the URL only when the metadata names neither a user nor a sec uid |
| Specs.KeywordSpecsAreStable | internal/execution/usecase/helpers.go:80-121 | Keyword specs depend on the values alone |
| Specs.OneSpecPerKeyword | internal/execution/usecase/helpers.go:80-121 | A keyword target dispatches one spec for each distinct non-blank trimmed keyword it was created from |
| Runtime.Service.DispatchOneSpec | internal/execution/usecase/usecase.go:148-271 | Makes exactly the calls of one of five outcomes, under a fresh task id |
| Runtime.Service.FanOut | internal/execution/usecase/usecase.go:89-98 | Tries every spec once, in order, whatever fails, and gathers tasks, counts and messages |
| Runtime.Service.DispatchPrepared | internal/execution/usecase/usecase.go:37-134 | Its calls are those of one job creation, one fan-out and one final status; a populated output counts what was done, and its status is decided by the counts |
| Runtime.Service.SummarizeDispatchFailures | internal/execution/usecase/usecase.go:287-307 | Distinct trimmed messages in order of first occurrence |
| Runtime.Service.DispatchTarget | internal/execution/usecase/usecase.go:17-35 | A manual dispatch works from the rows it reads: an active target of an unarchived crawl source with a mode, which need not be ACTIVE; which rows give which error |
| Runtime.Service.HandleDueTarget | internal/execution/usecase/cron.go:46-222 | One turn of the loop: its calls, its verdict, and that its claim asks for now plus the effective interval |
| Runtime.Service.DispatchDueTargets | internal/execution/usecase/cron.go:12-225 | A tick's calls are those of its turns in order, each target has one turn, the counters count them, and at most the limit are handled |
| Runtime.Service.ListDueTargets | internal/execution/repository/postgre/due_targets.go:29-79 | At most the limit of distinct targets, each active, due and of an ACTIVE crawl source as stored; all of those when there are fewer |
| Runtime.Service.ClaimTarget | internal/execution/repository/postgre/due_targets.go:142-183 | A claim is stored only on an active, due target of an ACTIVE crawl source, then moves the column; otherwise the column stays, and a lost claim means one of these failed |
| Runtime.Service.GetDispatchContext | internal/execution/repository/postgre/dispatch.go:20-53 | The rows as stored at that moment, of the kinds the tick began with |
| Runtime.FannedReports | internal/execution/usecase/usecase.go:80-133 | TaskCount is the number of specs and of tasks and the sum of the counts; FAILED, PARTIAL or RUNNING exactly by them |
| Fanout.DispatchIsDisciplined | internal/execution/usecase/usecase.go:148-271 | In every dispatch a publish follows the creation of its row with the same spec, and every created row is marked published or marking it failed is attempted |
| Fanout.SettledExactly | internal/execution/usecase/usecase.go:181-271 | In a dispatch a row is later marked published, or its failing attempted, exactly when its creation reported success; after a creation that reported an error no other call is about its task |
| TurnLaws.DispatchIsOrdered | internal/execution/usecase/usecase.go:181-271 | A stored row is published by the next call, a publish is marked by the next one according to its own outcome, a lost mark fails its task, and nothing else is published or marked |
| TurnLaws.DispatchNamesItsJob | internal/execution/usecase/usecase.go:57-130 | All rows and the final status of a dispatch name the one job it created |
| TurnLaws.FinalizesExactly | internal/execution/usecase/usecase.go:100-130 | The job is finalised exactly when some task was not published, as FAILED when none was and as PARTIAL otherwise, with the number of failed ones and each of their texts once |
| TurnLaws.ErrorExactly | internal/execution/usecase/usecase.go:57-134 | A dispatch succeeds exactly when some task was marked published and a partial result was recorded; it is not allowed exactly on a conflict |
| TurnLaws.ReportedTasks | internal/execution/usecase/usecase.go:80-98 | The output lists the tasks in order, each RUNNING exactly when it was marked published |
| Fanout.TurnsAreDisciplined | internal/execution/usecase/cron.go:46-222 | The same discipline over a whole tick |
| Fanout.PrefixesToo | internal/execution/usecase/usecase.go:193-222 | The publish rule holds on every prefix of the calls |
| Fanout.DispatchDelivers | internal/execution/usecase/usecase.go:80-134 | Actual deliveries lie between the published count and the number of specs |
| Fanout.FreshIsDistinct | internal/execution/usecase/usecase.go:155-155 | Task ids of one dispatch are pairwise different |
| TickTheorems.ClaimFate | internal/execution/usecase/cron.go:90-222 | A won claim ends in exactly one of three ways: kept with a message published, kept because another job runs, or a release attempted; a conflict is never released, nor is a marked publish whose result was recorded; without a won claim nothing is created |
| TurnLaws.ReleasedExactly | internal/execution/usecase/cron.go:123-222 | A claim is given back exactly when it was won, no other job was in the way, and no task was marked published or a partial result could not be recorded |
| TurnLaws.ReleaseIsLast | internal/execution/usecase/cron.go:123-222 | It is given back by the last call of the turn and for the claimed target |
| TurnLaws.ClaimsExactly | internal/execution/usecase/cron.go:46-104 | A turn claims its target exactly when the listed rows are those of an ACTIVE crawl source with a mode and an active target, the project check was passed, the interval is positive and specs can be built; from now until the effective interval later, in seconds |
| TurnLaws.JobsExactly | internal/execution/usecase/cron.go:123-171 | After a won claim a job is created exactly when the rows read again are fit and their project is still allowed |
| TurnLaws.VerdictExactly | internal/execution/usecase/cron.go:90-222 | A turn counts as dispatched, skipped or failed exactly by what it claimed, released and met |
| TurnLaws.CountersAreEndings | internal/execution/usecase/cron.go:42-225 | Each counter of a tick is the number of turns that end as it says |
| TickTheorems.CountersAgree | internal/execution/usecase/cron.go:42-225 | DueCount is the sum of dispatched, skipped and failed; ClaimedCount is the number of claims won; releases are among the claims not dispatched |
| TickTheorems.JobsAreChecked | internal/execution/usecase/cron.go:123-171 | Every job is created from rows re-read after the claim that then passed the ACTIVE-source, active-target and ACTIVE-project checks |
| TickTheorems.KeywordSpecsAreCurrent | internal/execution/usecase/cron.go:57-171 | For keyword targets the specs built before the claim are those of the rows re-read after it |
| TickTheorems.ReleasedAlthoughSent | internal/execution/usecase/usecase.go:100-134 | A claim is released although a publish succeeded exactly when no sent task was marked published, or a partial result was not recorded |
| TickTheorems.UnmarkedTurnIsReleased | internal/execution/usecase/usecase.go:232-255 | A turn that releases its claim although its one message went out |
| TickTheorems.UnrecordedTurnIsReleased | internal/execution/usecase/usecase.go:115-127 | A turn that releases its claim because a partial result was not recorded |
| StaleSpecs.StaleSafeExactly | internal/execution/usecase/cron.go:57-171 | Specs built from listed rows stay right under every run of control-plane calls exactly for keyword targets |
| StaleSpecs.SwapRuns | internal/datasource/usecase/target.go:117-259 | Three ordinary calls replace the metadata of an active target and leave its source ACTIVE |
| Witnesses.ProfileIsStaged | internal/datasource/usecase/target.go:29-259 | A run that brings a profile target to the stage on which its specs can go stale |
| RateBound.SpacedUnlessDisturbed | internal/execution/repository/postgre/due_targets.go:142-216 | In every history of claims, releases, cancellations and row rewrites of any number of instances, a claim waits for the interval in force at an earlier kept claim unless a step between the two clears or sets back the column of a kept claim |
| RateBound.KeptClaimsAreSpaced | internal/execution/repository/postgre/due_targets.go:142-184 | In every history without such a step all kept claims are spaced |
| RateBound.NextClaimIsSpacedExactly | internal/execution/repository/postgre/due_targets.go:186-216 | After a kept claim every next claim respects the interval exactly when the column is neither NULL nor earlier than what that claim stored |
| RateBound.DisturbancesExactly | internal/execution/repository/postgre/cancel.go:106-112 | A step other than a claim keeps every next claim spaced exactly when it does not disturb the kept claim |
| RateBound.LateGiveBackBreaksTheBound | internal/execution/repository/postgre/due_targets.go:186-216 | A history of three scheduler instances in which a late release breaks the bound |
| RateBound.CancellationBreaksTheBound | internal/execution/repository/postgre/cancel.go:106-112 | One with claims and a cancellation only |
| RateBound.StaleRewriteBreaksTheBound | internal/datasource/repository/postgre/target.go:112-151 | One with claims and an update of the target row only, which writes back the column as it was before |
| RateBound.PauseAndResumeBreakTheBound | internal/execution/repository/postgre/cancel.go:106-112 | A run of one scheduler instance, paused after a kept claim and resumed, whose next claim does not wait |
| RateBound.WindowBound | internal/execution/usecase/cron.go:70-121 | A window of W minutes holds at most W + 1 kept claims of any stretch of a history, and one more for each disturbance in it |
| RateBound.TurnsFollow | internal/execution/usecase/cron.go:90-222 | A scheduler turn that finds the column as a history left it continues the history, also by a claim that was stored under an error, and disturbs no claim |
| RateBound.OneInstanceIsBounded | internal/execution/usecase/cron.go:42-222 | In every run of ticks of one instance whose time does not run backwards, with cancellations and row updates between its turns, a kept claim and a later claim are spaced unless a cancellation or a stale row update disturbs a kept claim between them, and a window of W minutes holds at most W + 1 kept claims and one more for each of those |
| RateBound.QuietInstanceIsBounded | internal/execution/usecase/cron.go:42-222 | Without cancellations and row updates they are always spaced, and a window of W minutes holds at most W + 1 |
| Completion.RunKeepsInv | internal/execution/usecase/consumer.go:14-139 | In every interleaving with crashes and faults each batch is parsed, about to be parsed by exactly one handler, or lost |
| Completion.AtMostOnce | internal/execution/repository/postgre/completion.go:54-122 | At most one batch per source and batch id, and at most one parse per batch |
| Completion.RunKeepsSourced | internal/execution/usecase/consumer.go:87-104 | Every batch was named by a delivered success completion of a task of its source |
| Completion.LostIsNeverParsed | internal/execution/usecase/consumer.go:54-109 | A batch that was lost is never parsed afterwards, however often its completion is delivered |
| BatchTheorems.StepLosesExactly | internal/execution/usecase/consumer.go:87-134 | A step loses a batch exactly when a handler crashes between insert and parse, or a new batch is inserted without acknowledgement or for a task that cannot be parsed |
| BatchTheorems.LostExactly | internal/execution/usecase/consumer.go:53-134 | In every reachable state the lost batches are those that no continuation parses |
| BatchTheorems.UnparsedExactly | internal/execution/usecase/consumer.go:14-139 | Over all runs, some stored batch can never be parsed exactly when some action lost one |
| BatchTheorems.NothingLostAllParsed | internal/execution/usecase/consumer.go:14-139 | In a run without such an action every stored batch is parsed or held by exactly one handler |
| BatchTheorems.EveryNewBatchCanBeLost | internal/execution/repository/postgre/completion.go:51-116 | From every state every new batch can be lost |
| BatchTheorems.SomeRunLosesABatch | internal/execution/usecase/consumer.go:87-109 | A run from the start that ends with a stored batch that is never parsed |
| Completion.CancelledReaderIsSilent | internal/execution/usecase/consumer.go:28-31 | A handler that reads a cancelled, completed task never writes |
| Completion.SuccessAlone | internal/execution/usecase/consumer.go:53-134 | What a success completion handled alone stores, marks and parses, and when it changes nothing |
| Completion.ErrorAlone | internal/execution/usecase/consumer.go:39-52 | An error completion fails its task unless it failed or was cancelled before; SUCCESS is overwritten |
| HandledTheorems.HandledExactly | internal/execution/usecase/consumer.go:14-139 | What a completion handled alone leaves behind and answers, for every input and all answers of its calls: refused inputs, unknown and cancelled tasks, known batches, missing objects, metadata that cannot be encoded, lost transactions and acknowledgements |
| Completion.PaddedSecondIsDropped | internal/execution/repository/postgre/completion.go:39-49 | Of two ids that differ in outer blanks, neither stored, the padded one is dropped when it comes second |
| Completion.PaddedFirstIsDoubled | internal/execution/repository/postgre/completion.go:39-84 | In the other order both are stored |
| BatchTheorems.AloneAddsTwinExactly | internal/execution/usecase/consumer.go:53-109 | In every state a success handled alone stores a batch that trims like a stored one exactly when there is one and neither the trimmed nor the exact id is stored |
| BatchTheorems.RunKeepsNoTwinsExactly | internal/execution/repository/postgre/completion.go:39-84 | In every interleaving the batches of a source stay different after trimming exactly when no insert of a new exact id finds its trimmed form stored |
| BatchTheorems.TrimmedDeliveriesHaveNoTwins | internal/execution/usecase/consumer.go:54-60 | When every delivered success names a trimmed id they always stay different |
| Consumer.Service.HandleCompletion | internal/execution/usecase/consumer.go:14-139 | The handler's code, with other handlers acting between its calls, leaves a state the machine reaches without a crash of this handler; it answers an error exactly when one of its repository calls did, and a refused input changes nothing |
| Consumer.Service.VerifyMinIOObject | internal/execution/usecase/helpers.go:211-236 | No attempt without a client; otherwise it stops at the first attempt that finds and describes the object, after at most three |
| Jobs.CountTasks | internal/execution/repository/postgre/helpers.go:94-111 | The loop counts the succeeded, failed and open tasks of a job |
| Jobs.RecomputedRuns | internal/execution/repository/postgre/helpers.go:94-142 | A recomputed job is RUNNING exactly when a task is open, none has failed and none is missing |
| Jobs.RecomputedMeans | internal/execution/repository/postgre/helpers.go:94-142 | RUNNING while tasks are open and none is lost or missing, SUCCESS when all are done, FAILED when all have ended and none is done, PARTIAL otherwise |
| Jobs.CompletionIs | internal/execution/repository/postgre/completion.go:54-149 | A completion settles its task and changes the status of its own job only |
| Jobs.DispatchWrites | internal/execution/repository/postgre/dispatch.go:138-267 | A dispatch adds open tasks to its job, marks them, and ends its job as FAILED or PARTIAL |
| Jobs.CancellationIs | internal/execution/repository/postgre/cancel.go:43-86 | A cancellation ends the pending, running and partial jobs and the open tasks, and leaves the rest |
| Jobs.JobsAreAdded | internal/execution/repository/postgre/dispatch.go:53-136 | A target gets a RUNNING job exactly when it has none; no other statement adds one |
| Jobs.RevivesExactly | internal/execution/repository/postgre/helpers.go:71-155 | The completion of a task of an ended job makes that job RUNNING beside another one of its target exactly when, before it, the other one runs, it is a success, another task of the job is open, no other is lost, and the job has all the tasks it expects |
| Jobs.StepKeepsOneRunningExactly | internal/execution/repository/postgre/dispatch.go:53-136 | The lock keeps creations from putting two RUNNING jobs on a target; a statement does so exactly when it is such a completion, which is decided before it |
| Jobs.RunKeepsOneRunningExactly | internal/execution/repository/postgre/dispatch.go:99-119 | Each target has at most one RUNNING job at every point of a run exactly when no completion of it is of that kind |
| Jobs.LateCompletionRevives | internal/execution/repository/postgre/helpers.go:71-155 | A run that ends with two RUNNING jobs of one target |
| CacheKey.MakeCacheKey | internal/sqlboiler/boil_types.go:39-57 | The buffer holds the kind, the columns and, after a dot, the defaults |
| CacheKey.KeysInjectiveExactly | internal/sqlboiler/boil_types.go:39-57 | For names without dots that begin with no digit, keys are injective exactly when the names are uniquely decodable |
| CacheKey.SeparableDecodes | internal/sqlboiler/boil_types.go:39-57 | Names decode uniquely when a name that continues another goes on with a character that begins no name |
| CacheKey.CrawlModeChangesKeys | internal/sqlboiler/crawl_mode_changes.go:375-375 | The columns of crawl_mode_changes are prefix-free, so its keys are injective |
| CacheKey.DataSourcesKeys | internal/sqlboiler/data_sources.go:652-652 | So are those of data_sources |
| CacheKey.CrawlModeDefaultsKeys | internal/sqlboiler/crawl_mode_defaults.go:127-127 | Those of crawl_mode_defaults are not prefix-free, and its keys are injective all the same |
| CacheKey.CollidingTable | internal/sqlboiler/boil_types.go:39-57 | A table whose keys collide |
| QueryCache.Table.Insert | internal/sqlboiler/crawl_mode_changes.go:909-989 | Whatever other goroutines cache, the statement that runs is the freshly built one; a failed build is an error |
| QueryCache.Table.Update | internal/sqlboiler/crawl_mode_changes.go:994-1052 | The same for updates |
| QueryCache.InsertWrites | internal/sqlboiler/crawl_mode_changes.go:909-960 | An insert writes and returns the chosen columns, and is refused exactly when one cannot be bound |
| QueryCache.UpdateWrites | internal/sqlboiler/crawl_mode_changes.go:994-1030 | An update writes every chosen column, created_at only when it is listed, and is refused exactly when none is left or one cannot be bound |
| Facebook.Flatten | internal/uap/usecase/facebook_parser.go:11-44 | The nested loops give the pre-order, and the callback sees exactly the returned sequence |
| Facebook.PreorderIsForest | internal/uap/usecase/facebook_parser.go:133-239 | Every comment hangs at depth one below the nearest post before it; depth zero, no parent and type POST coincide |
| Facebook.IdsOfKindsDiffer | internal/uap/usecase/helpers_common.go:325-327 | No comment shares its id with a post |
| Facebook.FlattenKeepsThreads | internal/uap/usecase/facebook_parser.go:19-41 | Reading the records back gives the threads of the input that have ids, in order, with their texts, authors, links and reaction counts |
| Facebook.KeywordIsOnEach | internal/uap/usecase/facebook_parser.go:11-44 | Every record carries the keyword of the crawl |
| Transcript.NormalizeKeepsWords | internal/uap/usecase/helpers_common.go:437-439 | Normalising keeps the words of a text, in order |
| Transcript.NormalizeIdempotent | internal/uap/usecase/helpers_common.go:437-439 | Normalising twice is normalising once |
| Transcript.NormalizeDecidesWords | internal/uap/usecase/helpers_common.go:437-439 | Two texts normalise alike exactly when they have the same words |
| Transcript.JoinTranscriptSegments | internal/uap/usecase/helpers_common.go:479-495 | The single-space join of all words of all segments, in order |
| Chunks.ChunkRecords | internal/uap/usecase/helpers_common.go:132-147 | Chunks concatenate to the records, are non-empty, all but the last full, and as many as the ceiling of n/20 |
| Chunks.Stats.PublishRecord | internal/uap/usecase/publisher.go:9-39 | Counts one attempt and its outcome, or nothing without a publisher |
| Chunks.Stats.PublishAll | internal/uap/usecase/publisher.go:9-39 | Attempts are successes plus failures, and as many as the records when a publisher is set |

## Left out

- DryrunTheorems.OneFlight: holds for operations that do not overlap; what overlapping ones do is in DryrunRaces.
- DryrunTheorems.RunKeepsFlights: likewise.
- Interleaving inside one control-plane operation, except for the dryrun guards (DryrunRaces) and the writes of `status` and `is_active` (TargetRaces): its reads and writes are one step, cut short by failures only. Between the steps of the runtime and of the completion handler everything interleaves.
- Stale row rewrites of other columns than `status`, `is_active` and `next_crawl_at`: a write of the control plane changes the columns of its patch only.
- TargetRaces: one source; the two reads of a guard are one step, and dryrun evidence, which only refuses more, is not part of it.
- Failed reads: a control-plane operation whose read fails writes nothing, which is the call with no write getting through.
- Runtime.Service.ListDueTargets: the fair order across projects is left open; the theorems hold for every order.
- Runtime.Service.CheckProject: the two project-service calls of one validation are one step with one outcome.
- Job rows: Jobs follows them by themselves; in the runtime's traces their conflict test appears as an outcome.
- RateBound.OneInstanceIsBounded: ticks of one instance that overlap in time count as several instances.
- JSON: metadata and payloads are decoded data. A metadata list that holds values other than strings is not represented.
- Facebook: attachments, links, timestamps and engagement counts other than reactions, which one record carries unchanged.
- Dryrun sample payloads, total counts and warnings of a completed dryrun; only its resulting status is kept.
- Upsert caches of the generated tables, whose key omits the option functions.
- sqlboiler's column inference is not part of this model; it is an arbitrary function of the request.
- Other parsers, chunk upload, subtitle downloads and raw-batch status updates.
- HTTP, message delivery, logging, authentication, configuration and connection handling.
