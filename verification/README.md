# A model of the voice-agent platform's hard parts

A Dafny project beside the repository. It models the pieces whose promises span several functions or whole runs, keeps each
source file's own form (methods and classes where the Python changes things step by step, functions where it computes), and
proves what those pieces promise for every input, every schedule or every interleaving. `dafny verify dfyconfig.toml` checks
all of it.

| file | what it covers |
|---|---|
| `SipResources.dfy`, `MirrorJobs.dfy`, `MirrorDrift.dfy` | SIP trunks and dispatch rules mirrored into LiveKit: sync, repair and drift check |
| `MirrorTasks.dfy`, `MirrorOwnership.dfy`, `MirrorSettling.dfy`, `MirrorRules.dfy`, `MirrorConvergence.dfy` | the same jobs as interleaved tasks, the invariants of every step, and convergence over any run |
| `MirrorOrphans.dfy`, `MirrorCrashes.dfy`, `MirrorPairs.dfy`, `MirrorOverlap.dfy`, `MirrorRuleOverlap.dfy` | what tasks leave behind in LiveKit, step by step and over runs, when they crash, and when two of one row overlap |
| `Whitespace.dfy`, `Chunker.dfy`, `ChunkerGroups.dfy` | splitting knowledge into overlapping chunks, and how neighbouring chunks overlap |
| `Measure.dfy` | percentiles, latency summaries and the decision where to run speech-to-text |
| `Options.dfy`, `Ordering.dfy`, `Routing.dfy` | optional values, stable sorting, and choosing the rule that decides a call |
| `TransferStatus.dfy`, `TransferFallback.dfy` | the status machine of a warm transfer, its row, its fallback plan and its dial loop |
| `TransferRun.dfy`, `TransferSafety.dfy`, `TransferLog.dfy`, `TransferGuarantees.dfy`, `TransferHangups.dfy`, `TransferEdges.dfy` | a whole transfer as concurrent tasks, the invariants of every step, the guarantees over every run, who is hung up on, and runs that reach its edges |
| `Breaker.dfy`, `Retry.dfy` | circuit breaker with late results, and capped exponential back-off |
| `Filler.dfy`, `Observer.dfy` | filler phrases cancelled by generation number, and the bounded, batched call observer |
| `Templates.dfy`, `Tools.dfy` | placeholders in tool templates, and call budgets of tools |
| `Tenants.dfy`, `CallState.dfy` | tenant isolation of the repository, and the call state machine with its event log |

How to read the models:

- A class has the source's fields. Its methods say, for the old and the new value of those fields, which specification
  function connects them; what the source promises is then proved about that function, over runs.
- A coroutine is cut at the suspension points where other tasks can see or change what it works on: what lies between two of
  them is one step, and the steps of different tasks are interleaved freely. Where a theorem restricts the interleaving, its
  hypothesis says so.
- The world's answers (replies of LiveKit, of the database, of a provider, the clock, a random draw) are parameters.
- Floats are reals, and times are numbers given to the step.

Where the code and its comments disagree the model follows the code, and these are theorems here:

- A trunk sync sends ACTIVE numbers only, while the drift check compares every attached number. A freshly repaired trunk is
  free of drift exactly when all its numbers are ACTIVE (`SettledTrunkAgreesIff`).
- A repair changes the trunk's id, so it always breaks the rules that point at it until they are synced
  (`RepairBreaksItsRules`), and a repair whose deletion fails leaves an orphan (`FailedDeletionOrphansIff`).
- Nothing stops two tasks of one row from overlapping. When both ask for a new trunk, as two syncs of a trunk that has just
  been created do, one of the two is orphaned whenever each reads the row before the other commits, although LiveKit never
  fails (`OverlapLeavesAnOrphanIff`, `TwoSyncsOfANewTrunkLeaveAnOrphan`, and a run from the start in `ANewTrunkIsOrphaned`);
  two syncs of a rule do that whenever the rule can be synced at all (`RuleOverlapLeavesAnOrphanIff`).
- A job that crashes is only logged. If LiveKit has answered with a new id and the commit fails, the resource is orphaned, and
  nothing ever takes it up again (`CrashLeavesAnOrphanIff`, `NewOrphansIff`).
- The "fields differ" default of the mismatch reasons is never reached (`MismatchIsExplained`).
- The tenant's own time zone is never used for opening hours (`TenantTimezoneIsNeverRead`).
- After the human leaves during the whisper the call is not always hung up: the plan may name a queue or a voicemail that
  nothing dials (`LeavingHumanHangsUpIff`, `LeavingHumanMaySkipTheHangup`, and over runs `LeftDuringTheWhisperIsHungUpOnIff`).
- The apology after a failure is published on a track that nobody may hear, the caller included, unless neither the hold with a
  caller to name nor the whisper was published before or the bridge had opened the tracks (`ApologyIsAudibleIff`). A caller whose
  human does not answer hears nothing (`UnansweredCallersHearNoApology`).
- A caller who hangs up after the last check is bridged all the same, and the row says ABANDONED for good
  (`AbandonedTooLateIsBridged`, and a run from the start in `CallerBridgedAfterHangingUp`). The write of BRIDGED is then illegal,
  and the joined line is hung up on unless a queue or voicemail is left to name (`AbandonedBridgeIsHungUpOnIff`).
- A caller who hangs up while the request is being written is forgotten and bridged all the same (`AbandonIsIgnoredIff`,
  `EarlyHangupIsBridged`).
- The back-off is not always the capped exponential: the first delay is never capped, so with a base above the cap it is not
  (`CappedExponentialIff`).
- A half-open breaker admits every request, not one probe (`HalfOpenAdmitsEveryone`); failures bleed off with successes rather
  than having to be consecutive (`TripsExactlyOnBursts`).
- Closing the observer flushes one batch of fifty and leaves the rest behind (`CloseLeavesTheRest`), and a flush that fails
  after its insert has already been counted (`SettleTallies`).
- A filler with a single clip plays it once in the whole call (`LoneClipPlaysOnce`).
- Adding a row under an id that another tenant holds is the one way a tenant learns of another's rows
  (`AddTellsWhetherTheIdIsTaken`).

## Model

| member | source | states |
|---|---|---|
| SipResources.PushedTrunkMatchesIff | services/configuration-api/app/livekit/sip.py:199-210 | what was pushed for a trunk reads back as a match exactly when the numbers pushed are the numbers compared |
| SipResources.PushedRuleMatchesIff | services/configuration-api/app/livekit/sip.py:293-311 | the same for a dispatch rule and the trunk ids it was pushed with |
| SipResources.BuiltExactlyToCarry | services/configuration-api/app/livekit/sip.py:87-101 | the record built for a trunk or a rule is exactly the one that carries the row, column by column |
| SipResources.LiveKitServer.CreateInboundTrunk | services/configuration-api/app/livekit/sip.py:77-117 | creating holds under the new id a record that carries the row's id, tenant, name, addresses, user name and encryption, the numbers and the password given, returns its snapshot and keeps everything else |
| SipResources.LiveKitServer.UpdateInboundTrunk | services/configuration-api/app/livekit/sip.py:154-197 | updating replaces a held trunk in place by the record that carries those columns and that password, returns its snapshot, is refused for an absent id, and hands out no id |
| SipResources.LiveKitServer.DeleteInboundTrunk | services/configuration-api/app/livekit/sip.py:212-223 | deleting removes that trunk only |
| SipResources.LiveKitServer.CreateDispatchRule | services/configuration-api/app/livekit/sip.py:225-268 | creating holds under the new id a rule that carries the row's id, tenant and columns and the trunk ids, returns its snapshot and touches neither trunks nor other rules |
| SipResources.LiveKitServer.DeleteDispatchRule | services/configuration-api/app/livekit/sip.py:313-325 | deleting removes that rule only |
| MirrorJobs.ApplyTrunkSync | services/configuration-api/app/livekit/jobs.py:129-184 | a trunk job that nothing interrupts, with its early failures, leaves the row and LiveKit as the specification says; a row left SYNCED names a record with the row's columns, its ACTIVE numbers and its stored password |
| MirrorJobs.ApplyDispatchRuleSync | services/configuration-api/app/livekit/jobs.py:187-245 | a rule job that nothing interrupts: only INDIVIDUAL rooms, only with a synced trunk, always recreated; a row left SYNCED names a rule with the row's columns on the trunk's id |
| MirrorJobs.FailRow | services/configuration-api/app/livekit/jobs.py:248-255 | a failure sets the status, the truncated error and one more attempt, and nothing else |
| MirrorJobs.SyncRow | services/configuration-api/app/livekit/jobs.py:168-172 | a success sets the id, the status and the time and clears the error and the attempts |
| MirrorJobs.ClearTrunk | services/configuration-api/app/livekit/jobs.py:152-160 | from one suspension to the next: the deletion is asked for, a failure of it is ignored, and the id is cleared |
| MirrorJobs.PushTrunk | services/configuration-api/app/livekit/jobs.py:162-184 | from one suspension to the next: an id is updated and its absence creates, and the row says how it went; a row left SYNCED names a record with its columns and the password given |
| MirrorJobs.ClearRule | services/configuration-api/app/livekit/jobs.py:219-228 | the same deletion for a rule |
| MirrorJobs.PushRule | services/configuration-api/app/livekit/jobs.py:230-245 | the same creation for a rule, with its columns on the trunk id given |
| MirrorJobs.NumbersWhereMembers | services/configuration-api/app/livekit/jobs.py:98-105 | the numbers selected are exactly those attached to the trunk, and ACTIVE when that is asked |
| MirrorJobs.SentIsExpectedIff | services/configuration-api/app/livekit/jobs.py:98-105 | the numbers a sync sends are those the drift check expects exactly when every attached number is ACTIVE |
| MirrorDrift.CompareTrunks | services/configuration-api/app/livekit/drift.py:115-176 | the loops report missing and mismatched rows in order and then the held trunks whose id no row names |
| MirrorDrift.CompareRules | services/configuration-api/app/livekit/drift.py:179-240 | the same for dispatch rules |
| MirrorDrift.TrunkOrphansIff | services/configuration-api/app/livekit/drift.py:163-176 | an orphan is found for exactly the ids that some held trunk has and no row names |
| MirrorDrift.RuleOrphansIff | services/configuration-api/app/livekit/drift.py:227-240 | the same for dispatch rules |
| MirrorDrift.ApplyFindings | services/configuration-api/app/livekit/drift.py:243-269 | every row is marked in place as its own last finding says |
| MirrorDrift.NumbersByTrunk | services/configuration-api/app/livekit/drift.py:361-374 | the grouping holds every number of every trunk, whatever its status |
| MirrorDrift.TrunkIdsByRule | services/configuration-api/app/livekit/drift.py:377-388 | each rule is mapped to its trunk's current id, or to nothing |
| MirrorDrift.MismatchIsExplained | services/configuration-api/app/livekit/drift.py:391-422 | a mismatch always has a named reason |
| MirrorDrift.TrunkReportedIff | services/configuration-api/app/livekit/drift.py:115-176 | a trunk row is reported exactly when it names something LiveKit does not hold or holds differently |
| MirrorDrift.RuleReportedIff | services/configuration-api/app/livekit/drift.py:179-240 | the same for a rule row |
| MirrorDrift.TrunkFindingSays | services/configuration-api/app/livekit/drift.py:115-161 | a finding about a trunk row is MISSING when LiveKit does not hold the id it names and otherwise MISMATCH with exactly the columns that differ, and carries the row's id, tenant and name |
| MirrorDrift.RuleFindingSays | services/configuration-api/app/livekit/drift.py:179-225 | the same for a rule row |
| MirrorDrift.MarkedDriftedIff | services/configuration-api/app/livekit/drift.py:243-269 | a row that names a resource ends DRIFTED exactly when it was reported, and SYNCED without an error otherwise |
| MirrorConvergence.RepairSettles | services/configuration-api/app/livekit/jobs.py:129-184 | a repair that nothing interrupts settles its trunk from any database and any LiveKit contents: what is then held carries the row's columns, owner, encryption, ACTIVE numbers and stored password |
| MirrorConvergence.RuleSyncSettles | services/configuration-api/app/livekit/jobs.py:187-245 | a sync that nothing interrupts settles an INDIVIDUAL rule whose trunk names a resource |
| MirrorSettling.TrunkStaysOnTrack | services/configuration-api/app/livekit/jobs.py:43-245 | as long as no two tasks of the trunk overlap and none of them crashes, no step of any task takes a repaired trunk off its way: what its row names stays held, private and as the row says, unless a task of its own is about to name something that is |
| MirrorRules.RuleStaysFollowed | services/configuration-api/app/livekit/jobs.py:64-245 | as long as neither the rule nor its trunk has two tasks under way at once or one that crashes, once a repair of the trunk has committed every step keeps an INDIVIDUAL rule on the trunk's present id or a task on its way to put it there |
| MirrorRules.RepairPutsRulesOnTheirWay | services/configuration-api/app/livekit/jobs.py:64-95 | the commit of a repair leaves every rule of its trunk with a sync that will follow |
| MirrorOwnership.NextStaysSound | services/configuration-api/app/livekit/jobs.py:43-245 | in any interleaving every id that LiveKit holds, a row names or a task is about to name is one LiveKit has handed out |
| MirrorConvergence.UninterruptedTaskIsTheJob | services/configuration-api/app/livekit/jobs.py:64-184 | a trunk task whose steps nothing interrupts does to its row and LiveKit what the whole job is specified to do |
| MirrorConvergence.RepairBreaksItsRules | services/configuration-api/app/livekit/jobs.py:129-184 | and a repair always breaks its trunk's settled rules |
| MirrorConvergence.TrunkConverges | services/configuration-api/app/livekit/jobs.py:43-184 | in any interleaving in which no two tasks of a trunk overlap and none of them crashes, once a repair of it has committed the trunk is settled whenever none of its tasks is left |
| MirrorConvergence.ScheduleConverges | services/configuration-api/app/livekit/jobs.py:43-245 | in any interleaving in which no two tasks of one row overlap, though a rule's may overlap its trunk's, and none of these tasks crashes, once a repair of a trunk has committed the trunk and each of its INDIVIDUAL rules are settled whenever none of their tasks is left |
| MirrorConvergence.RepairAndItsDependentsSettle | services/configuration-api/app/livekit/jobs.py:43-245 | so a repair and the syncs it enqueues itself settle every attached INDIVIDUAL rule, in any such interleaving |
| MirrorConvergence.SettledTrunkAgreesIff | services/configuration-api/app/livekit/drift.py:310-374 | a settled trunk is free of findings exactly when its numbers are all ACTIVE |
| MirrorConvergence.CheckReportsIff | services/configuration-api/app/livekit/drift.py:310-358 | a whole drift check reports a row exactly when the row and LiveKit disagree |
| MirrorConvergence.RepairThenSyncLeavesNoDrift | services/configuration-api/app/livekit/drift.py:310-358 | when every trunk has been repaired in such a run and no task is left, a drift check reports exactly the trunks with a number that is not ACTIVE, and no attached INDIVIDUAL rule |
| MirrorConvergence.CheckMarksIff | services/configuration-api/app/livekit/drift.py:243-358 | the statuses a drift check leaves on all rows |
| MirrorOrphans.TrunkStrayAddedIff | services/configuration-api/app/livekit/jobs.py:129-184 | a step of a trunk task leaves an id behind exactly when it commits over it and nobody else names it |
| MirrorOrphans.RuleStrayAddedIff | services/configuration-api/app/livekit/jobs.py:187-245 | the same for a rule task |
| MirrorOrphans.NoNewOrphans | services/configuration-api/app/livekit/jobs.py:43-245 | while no two tasks of one row overlap, deletions fail only on absent ids and no task crashes between an answer with a new id and its commit, no run adds an orphan; creations, updates and passwords may fail and tasks may crash elsewhere |
| MirrorOrphans.CheckFindsOrphansIff | services/configuration-api/app/livekit/drift.py:310-358 | a drift check reports an orphan for exactly the ids held that no row names |
| MirrorOrphans.NoNewOrphanFindings | services/configuration-api/app/livekit/drift.py:310-358 | so a check after such a run reports no orphan that a check before it did not |
| MirrorCrashes.NextStaysOwned | services/configuration-api/app/livekit/jobs.py:43-245 | in any interleaving with any failures, an id that a task has been answered and has not committed is held and named by nobody else |
| MirrorCrashes.CrashLeavesAnOrphanIff | services/configuration-api/app/livekit/jobs.py:57-83 | after any run, a task that crashes leaves something behind exactly when it has been answered a new id that it has not committed |
| MirrorCrashes.NewOrphansIff | services/configuration-api/app/livekit/jobs.py:43-245 | while no two tasks of one row overlap and deletions fail only on absent ids, a run adds an orphan exactly when a task crashes in that position |
| MirrorOrphans.FailedDeletionOrphansIff | services/configuration-api/app/livekit/jobs.py:129-184 | a repair whose deletion raises leaves an orphan exactly when no other row names the id |
| MirrorOverlap.OverlapLeavesAnOrphanIff | services/configuration-api/app/livekit/jobs.py:43-184 | after any run: two tasks of a trunk that each read its row before the other commits, with creations that succeed and deletions that fail only on absent ids, leave an orphan exactly when both ask for a new trunk, in every interleaving with each other and with the tasks of other rows; the orphan stays |
| MirrorRuleOverlap.RuleOverlapLeavesAnOrphanIff | services/configuration-api/app/livekit/jobs.py:43-245 | the same for two syncs of a rule whose trunk meanwhile neither gains nor loses its id: they leave an orphan exactly when the rule can be synced at all |
| MirrorOverlap.TwoSyncsOfANewTrunkLeaveAnOrphan | services/configuration-api/app/api/v1/phone_numbers.py:213-216 | two overlapping syncs of a trunk without an id, as its creation and its first number enqueue them, create it twice and orphan one, in every interleaving |
| MirrorOverlap.ANewTrunkIsOrphaned | services/configuration-api/app/api/v1/sip_trunks.py:266-267 | a run from the enqueueing of both to the orphan, where the second reads while the first waits for LiveKit |
| Whitespace.StripCuts | services/shared/shared/knowledge.py:49-51 | stripping removes whitespace from both ends and nothing else |
| Chunker.CollapseCollapses | services/shared/shared/knowledge.py:49-51 | collapsing leaves single inner spaces only and loses no other character |
| Chunker.SplitIsParagraphs | services/shared/shared/knowledge.py:120-158 | on a collapsed text the split yields exactly the sentences |
| Chunker.ChunksTileTheText | services/shared/shared/knowledge.py:120-162 | for every text, size and overlap: chunks are intervals of the collapsed text no longer than size, their starts never decrease, and they cover every non-space position |
| Chunker.WindowsTile | services/shared/shared/knowledge.py:160-162 | the sliding windows of one long sentence that are not blank lie inside it in order, are no longer than size, and cover its letters |
| Chunker.WindowIsWindowSpans | services/shared/shared/knowledge.py:160-162 | windows computed on strings are those intervals |
| Chunker.LoopIsPlan | services/shared/shared/knowledge.py:120-158 | the loop on strings appends exactly the planned intervals |
| Chunker.ChunkText | services/shared/shared/knowledge.py:120-158 | the method computes the planned chunks, by default 800 characters with 120 of overlap |
| Chunker.AddParagraph | services/shared/shared/knowledge.py:134-156 | one turn of the loop, with its three branches |
| ChunkerGroups.WindowsSlide | services/shared/shared/knowledge.py:160-162 | windows start max(size - overlap, 1) apart, from the start of the text to its end, and are cut off only by that end |
| ChunkerGroups.WindowsOverlap | services/shared/shared/knowledge.py:160-162 | the last `overlap` positions of a window that does not reach the end are the first ones of the next window |
| ChunkerGroups.NoWindowIsBlank | services/shared/shared/knowledge.py:160-162 | windows of two characters or more are never blank, so none is dropped and neighbouring chunks of one sentence overlap so |
| ChunkerGroups.ChunksAreGrouped | services/shared/shared/knowledge.py:120-162 | the chunks of any text are stretches packed with as many sentences as fit, or windowed: after a packed one the next stretch repeats its last `overlap` characters but for one leading space, or all of it when it has no more, and after a windowed one nothing |
| Measure.SortingPreservesPointwise | services/shared/shared/measure.py:79-98 | if every value grows or stays, every order statistic does |
| Measure.PercentileMonotoneInSamples | services/shared/shared/measure.py:79-98 | slower samples never give a lower percentile |
| Measure.PercentileMonotoneInP | services/shared/shared/measure.py:79-98 | a higher percentile is never lower; 0 is the minimum and 100 the maximum |
| Measure.PercentileInterpolates | services/shared/shared/measure.py:89-98 | between two ranks the percentile lies on the line between the two order statistics |
| Measure.SummaryOrdered | services/shared/shared/measure.py:161-206 | the columns of a summary are ordered, and the mean lies between the extremes |
| Measure.SelfHostedIff | services/shared/shared/measure.py:118-158 | self-hosting is recommended exactly when some STT row is usable and every usable one passes its gate |
| Measure.RefusalNamesTheWorst | services/shared/shared/measure.py:118-158 | a refusal names the row that fails worst |
| Measure.SlowerSummary | services/shared/shared/measure.py:161-206 | slower successful probes give a summary that is nowhere better |
| Measure.SlowerNeverFlipsToSelfHosted | services/shared/shared/measure.py:79-206 | making successful probes slower never turns a hosted recommendation into a self-hosted one |
| Ordering.StableSortIsStable | services/ai-agent-worker/worker/routing.py:370-375 | sorting by a key keeps the given order among equals |
| Routing.LoadHoursMap | services/ai-agent-worker/worker/routing.py:213-238 | joined rows fold into one schedule per id, with every interval in order |
| Routing.ResolveRoute | services/ai-agent-worker/worker/routing.py:285-477 | sorting and walking the rules returns what the first that is closed or has an agent decides |
| Routing.FirstDecisionIsLeast | services/ai-agent-worker/worker/routing.py:377-477 | the first deciding rule precedes every other deciding rule, and there is none only if none decides |
| Routing.SortedByPrecedence | services/ai-agent-worker/worker/routing.py:101-118 | the SQL order followed by the stable sort puts the lower priority number first, then the rule with more conditions, then the name |
| Routing.LeastDecidingUnique | services/ai-agent-worker/worker/routing.py:241-277 | with distinct names the least deciding rule is unique |
| Routing.RoutingIsDeclarative | services/ai-agent-worker/worker/routing.py:285-477 | routing is the least matching rule, by lower priority number, more conditions and name, that is closed or has an agent |
| Routing.RoutingIgnoresStorageOrder | services/ai-agent-worker/worker/routing.py:101-118 | the outcome is the same for every permutation of the stored rules |
| Routing.TenantTimezoneIsNeverRead | services/ai-agent-worker/worker/routing.py:178-210 | schedules carry a zone, so the tenant's own never matters |
| Routing.OneConditionMatches | services/ai-agent-worker/worker/routing.py:246-277 | which calls a rule with a single condition matches, for each of the six conditions and for unknown ones |
| Routing.ConditionsAreJudgedAlone | services/ai-agent-worker/worker/routing.py:246-277 | a rule matches exactly when each of its conditions that is not null does on its own |
| Routing.SpecificityCounts | services/ai-agent-worker/worker/routing.py:241-243 | each condition adds one to the specificity unless it is null |
| Routing.ClosedIff | services/ai-agent-worker/worker/routing.py:178-210 | closed means a known zone and either today's first holiday entry not saying open, or no entry and no interval of the day that has opened and not closed |
| TransferStatus.TransferRow.Advance | services/ai-agent-worker/worker/transfer/status.py:45-92 | writes a legal status and its columns, or raises and writes nothing; the history stays a path |
| TransferStatus.TransferRow.Patch | services/ai-agent-worker/worker/transfer/status.py:95-146 | writes columns and moves the status only to the one captured |
| TransferStatus.TransferProgress.CommitAdvance | services/ai-agent-worker/worker/transfer/engine.py:502-512 | up to the commit the row advances from the status in memory, or raises, and memory stays |
| TransferStatus.TransferProgress.FinishAdvance | services/ai-agent-worker/worker/transfer/engine.py:502-512 | at the return memory takes the status of the row |
| TransferStatus.AgreeIff | services/ai-agent-worker/worker/transfer/engine.py:502-512 | row and memory agree exactly when no advance is between its commit and its return |
| TransferStatus.ColumnsAreNeverErased | services/ai-agent-worker/worker/transfer/status.py:15-38 | no update erases any of the eight columns another one filled, and applying it twice changes nothing more |
| TransferStatus.StagesAdvanceByPosition | services/shared/shared/models/enums.py:234-263 | the stages can only be entered in order, one per step |
| TransferStatus.OnlyWayToBridged | services/shared/shared/models/enums.py:234-263 | no transfer takes more than five steps, and BRIDGED is reached through every stage |
| TransferStatus.OvertakenPatchBreaksThePath | services/ai-agent-worker/worker/transfer/status.py:95-146 | a patch that captured its status before an advance and commits after it always moves the row backwards |
| TransferFallback.ResolveDestinationFinds | services/ai-agent-worker/worker/transfer/destinations.py:97-116 | something is chosen whenever there is a destination; a known id is honoured and an unknown one falls to the first |
| TransferFallback.ResolvePicksTheBestMatch | services/ai-agent-worker/worker/transfer/destinations.py:97-116 | of the destinations the first whose name is the wanted one is chosen, else the first whose name or target contains it, else the first of all |
| TransferFallback.PlanHangsUpIff | services/ai-agent-worker/worker/transfer/fallback.py:41-81 | a plan hangs up exactly when no untried queue or voicemail is left, and otherwise names it |
| TransferFallback.LeavingHumanHangsUpIff | services/ai-agent-worker/worker/transfer/engine.py:289-297 | when the human leaves, the hangup happens exactly when no other queue or voicemail is configured |
| TransferFallback.LeavingHumanMaySkipTheHangup | services/ai-agent-worker/worker/transfer/engine.py:289-297 | a configuration where it does not |
| TransferFallback.DialLoop | services/ai-agent-worker/worker/transfer/engine.py:199-247 | for any outcomes the loop ends in one answer or one failure that hangs up, dialling at most two different destinations |
| TransferRun.CallerIdentity | services/ai-agent-worker/worker/transfer/isolation.py:37-50 | the caller is a named participant that is not the human agent, when there is one |
| TransferRun.CallerIsFirst | services/ai-agent-worker/worker/transfer/isolation.py:37-50 | and it is the first such participant |
| TransferRun.HumanIdentity | services/ai-agent-worker/worker/transfer/isolation.py:23-28 | the identity dialled is recognised as the human agent |
| TransferSafety.WhisperGuards | services/ai-agent-worker/worker/transfer/engine.py:423-432 | publishing the whisper and restricting the tracks leaves it to the human alone |
| TransferSafety.PlayGuards | services/ai-agent-worker/worker/transfer/audio.py:44-79 | playing, even when it must publish the track again, keeps every whisper track closed to others |
| TransferSafety.StopGuards | services/ai-agent-worker/worker/transfer/engine.py:492-500 | stopping the audio from any task, at any point, keeps them closed |
| TransferSafety.StopClosesBoth | services/ai-agent-worker/worker/transfer/engine.py:492-500 | a stop that nothing interrupts unpublishes the hold and then the whisper, as far as they are held, and lets go of both |
| TransferSafety.WaysToWhisper | services/ai-agent-worker/worker/transfer/engine.py:409-453 | a whisper is reached only through publishing it first |
| TransferSafety.RunWritesLegally | services/ai-agent-worker/worker/transfer/engine.py:193-352 | no step of a run writes a status the table does not allow |
| TransferSafety.NextStaysOnTheTable | services/ai-agent-worker/worker/transfer/engine.py:125-191 | every event keeps the row the last status written, the statuses a path of the table, and the memory equal to the row but for a request whose write has not returned |
| TransferSafety.NextIsolates | services/ai-agent-worker/worker/transfer/isolation.py:53-85 | every event keeps the whisper guarded while it may play |
| TransferLog.NextCloses | services/ai-agent-worker/worker/transfer/engine.py:330-352 | every event keeps the whisper held or closed, so a bridge finds it closed |
| TransferLog.RunJustifies | services/ai-agent-worker/worker/transfer/engine.py:262-352 | whatever a step shows was preceded by what must precede it |
| TransferLog.EveryRunIsSafe | services/ai-agent-worker/worker/transfer/engine.py:125-352 | after every sequence of events the whisper is isolated, the statuses are on the table, the tracks are held or closed, and every entry shown is justified by those before it; hangups are counted in `TransferHangups.dfy` |
| TransferLog.WhisperReachesOnlyTheHuman | services/ai-agent-worker/worker/transfer/engine.py:409-453 | in every interleaving only the human may subscribe when a whisper frame is written, tracks are opened only once the whisper is closed, and no frame follows |
| TransferLog.RowFollowsTheTable | services/ai-agent-worker/worker/transfer/engine.py:502-512 | in every run the statuses written are a path of the table that ends in the row, and the memory agrees with the row exactly unless the request is written and has not returned |
| TransferGuarantees.BridgedComesLast | services/ai-agent-worker/worker/transfer/engine.py:262-352 | every BRIDGED write follows the summary, the whisper status and the opening of the tracks |
| TransferGuarantees.AbandonedInTimeNeverBridges | services/ai-agent-worker/worker/transfer/engine.py:168-182 | an abandonment that is not ignored and comes before the bridge begins prevents it in every continuation |
| TransferEdges.AbandonIsIgnoredIff | services/ai-agent-worker/worker/transfer/engine.py:129-174 | after any run an abandonment does nothing exactly when the legs are joined, an earlier one was written, nothing was requested, or the request is written and its write has not returned |
| TransferEdges.EarlyHangupIsBridged | services/ai-agent-worker/worker/transfer/engine.py:145-182 | a run from the start in which a caller hangs up during that write and is bridged |
| TransferGuarantees.AbandonedTooLateIsBridged | services/ai-agent-worker/worker/transfer/engine.py:306-352 | one that comes later does not, and leaves the row ABANDONED |
| TransferEdges.AnsweredTransferBridges | services/ai-agent-worker/worker/transfer/engine.py:306-352 | a run from the start that reaches the moment where it is too late |
| TransferEdges.CallerBridgedAfterHangingUp | services/ai-agent-worker/worker/transfer/engine.py:168-182 | so that a caller who hangs up then is bridged, and the row says ABANDONED |
| TransferGuarantees.NoDestinationIsTriedTwice | services/ai-agent-worker/worker/transfer/engine.py:199-247 | in every run at most two destinations are tried, never the same one twice, and the second is the configured retry |
| TransferGuarantees.RestrictedApologiesAreUnheard | services/ai-agent-worker/worker/transfer/engine.py:361-390 | every apology spoken after the hold restricted the tracks, and before they are opened, is published where nobody may hear it |
| TransferEdges.ApologyIsAudibleIff | services/ai-agent-worker/worker/transfer/engine.py:361-390 | after any run an apology may be heard exactly when no step before published the hold with a caller to name or the whisper, or the bridge had opened the tracks |
| TransferEdges.UnansweredCallersHearNoApology | services/ai-agent-worker/worker/transfer/engine.py:312-328 | the run from the start that a human who does not answer makes: its apology is published and nobody may hear it |
| TransferGuarantees.HumanHearsTheWhisper | services/ai-agent-worker/worker/transfer/engine.py:409-453 | until someone abandons, whisper frames go to a track the human, and only the human, may hear |
| TransferGuarantees.CallerHearsTheHold | services/ai-agent-worker/worker/transfer/engine.py:427-432 | and a caller who is known may meanwhile hear the hold |
| TransferGuarantees.HoldIsForTheCaller | services/ai-agent-worker/worker/transfer/engine.py:361-374 | the hold is published under a new sid, and a caller in the room is from then on the only one who may hear anything, namely it |
| TransferEdges.WhisperedTransferBridges | services/ai-agent-worker/worker/transfer/engine.py:262-352 | a run from the start in which a frame is written that the human alone may hear, and the caller is bridged afterwards |
| TransferHangups.AtMostOneHangup | services/ai-agent-worker/worker/transfer/engine.py:193-328 | in every run the caller is hung up on at most once, and then the run is over |
| TransferHangups.UnansweredIsHungUpOnIff | services/ai-agent-worker/worker/transfer/engine.py:199-247 | after any run, a leg that nobody answers is followed by the configured queue or voicemail when that was not tried, and otherwise by exactly one hangup, however the rest is interleaved |
| TransferHangups.LeftDuringTheWhisperIsHungUpOnIff | services/ai-agent-worker/worker/transfer/engine.py:289-297 | after any run, when the human leaves the whisper there is exactly one hangup if no queue or voicemail other than their own destination is configured, and none otherwise |
| TransferHangups.RaisingIsHungUpOnIff | services/ai-agent-worker/worker/transfer/engine.py:248-260 | after any run, when a step raises there is exactly one hangup if the configured queue or voicemail was tried, was about to be dialled or does not exist, and none otherwise |
| TransferHangups.AbandonedBridgeIsHungUpOnIff | services/ai-agent-worker/worker/transfer/engine.py:330-352 | the same for the write of BRIDGED that an abandonment has made illegal, after the legs are joined |
| TransferHangups.FailureIsRetriedOnce | services/ai-agent-worker/worker/transfer/engine.py:248-260 | a failure that raises is tried once more, as FAILED, and when that raises too the run ends with nothing shown |
| TransferHangups.AbandonedRunEndsQuietly | services/ai-agent-worker/worker/transfer/engine.py:262-306 | after any run, one that finds its caller gone, when the human answers or before it bridges, ends there with nothing said, written or hung up |
| TransferHangups.UnansweredIsRecorded | services/ai-agent-worker/worker/transfer/engine.py:312-324 | the row of a call that failed because nobody answered says why, unless it was abandoned |
| TransferHangups.BridgedOrHungUp | services/ai-agent-worker/worker/transfer/engine.py:193-352 | a transfer in which nothing raises and neither party leaves ends in a bridge or in one hangup, never in both or neither |
| Breaker.CircuitBreaker.IsOpen | services/ai-agent-worker/worker/resilience/__init__.py:147-162 | refuses within the recovery window and otherwise ends it |
| Breaker.CircuitBreaker.RecordSuccess | services/ai-agent-worker/worker/resilience/__init__.py:164-176 | closes a probing breaker at the threshold, or bleeds one failure off a closed one |
| Breaker.CircuitBreaker.RecordFailure | services/ai-agent-worker/worker/resilience/__init__.py:178-193 | trips a closed breaker at the threshold and a probing one at once, and never reopens an open one |
| Breaker.Transport.Admit | services/ai-agent-worker/worker/resilience/__init__.py:240-249 | a request is admitted exactly when the breaker does not refuse it |
| Breaker.Transport.Settle | services/ai-agent-worker/worker/resilience/__init__.py:250-264 | connection, timeout and network errors and responses of 500 and above count as failures, other responses as successes, other errors as nothing |
| Breaker.CountsAppends | services/ai-agent-worker/worker/resilience/__init__.py:164-193 | the floored counter is the largest excess of failures over successes in any recent stretch |
| Breaker.TripsExactlyOnBursts | services/ai-agent-worker/worker/resilience/__init__.py:164-193 | in any run a closed breaker trips exactly on a failure that completes a burst of the threshold since it last closed |
| Breaker.WindowHolds | services/ai-agent-worker/worker/resilience/__init__.py:147-193 | late results neither shorten nor extend the window |
| Breaker.WindowIsExact | services/ai-agent-worker/worker/resilience/__init__.py:147-193 | under a monotone clock no request is admitted within the recovery timeout, and the first to ask after it is |
| Breaker.HalfOpenAdmitsEveryone | services/ai-agent-worker/worker/resilience/__init__.py:153-173 | a half-open breaker admits every request and closes with the success that meets the threshold |
| Retry.AsyncRetry | services/ai-agent-worker/worker/resilience/__init__.py:323-369 | returns the first value or raises the last call's error, within the attempts, sleeping the specified waits |
| Retry.DelayIsCappedExponential | services/ai-agent-worker/worker/resilience/__init__.py:344-367 | the delay after k failures is min(base x multiplier^k, cap) for every base up to the cap and every multiplier |
| Retry.CappedExponentialIff | services/ai-agent-worker/worker/resilience/__init__.py:344-367 | that holds after every number of failures exactly when the base is at most the cap |
| Retry.WaitIsBounded | services/ai-agent-worker/worker/resilience/__init__.py:354-366 | each wait lies between nothing and the cap |
| Retry.WaitsFollowTheExponential | services/ai-agent-worker/worker/resilience/__init__.py:354-366 | each wait is the capped exponential with a tenth of jitter, capped again; waits never shrink when the multiplier is at least one and never grow when it is at most one |
| Retry.SleepIsBounded | services/ai-agent-worker/worker/resilience/__init__.py:344-367 | total sleep is at most (attempts - 1) times the cap, for every policy with a cap |
| Filler.FillerTrack.Arm | services/ai-agent-worker/worker/filler_track.py:164-169 | outdates every task and schedules one timer under a new generation |
| Filler.FillerTrack.Stop | services/ai-agent-worker/worker/filler_track.py:171-182 | outdates every task |
| Filler.FillerTrack.AfterDelay | services/ai-agent-worker/worker/filler_track.py:184-212 | a current timer picks a ready phrase other than the last, if there is one, and starts its writer |
| Filler.FillerTrack.Resume | services/ai-agent-worker/worker/filler_track.py:214-228 | a writer gives one frame at a time and stops as soon as it is outdated |
| Filler.FramesStayInGeneration | services/ai-agent-worker/worker/filler_track.py:194-228 | in every interleaving generation tags never decrease, and a generation's frames are a prefix of a clip that was synthesised in the run for a phrase that the run chose |
| Filler.PhrasesVary | services/ai-agent-worker/worker/filler_track.py:184-207 | two phrases in a row always differ, each had a clip, and the count is right |
| Filler.LoneClipPlaysOnce | services/ai-agent-worker/worker/filler_track.py:184-192 | with a clip for a single phrase it is played at most once in the call |
| Filler.StopIsImmediate | services/ai-agent-worker/worker/filler_track.py:171-182 | after a stop or a close nothing is chosen or written until a later arm, even by tasks never cancelled |
| Filler.OnePhrasePerArm | services/ai-agent-worker/worker/filler_track.py:164-212 | at most one phrase is played for each arm |
| Filler.ArmedFillerPlays | services/ai-agent-worker/worker/filler_track.py:164-228 | after any run, a filler armed on a published track with a clip for a phrase other than the last chooses one such phrase, and left alone gives its clip from the first frame to the last |
| Filler.ClosedFillerIsSilent | services/ai-agent-worker/worker/filler_track.py:149-160 | a closed filler writes nothing until it is published again, however often it is armed |
| Observer.CallObserver.Enqueue | services/ai-agent-worker/worker/pipeline/observer.py:319-325 | a full queue drops the record and counts it |
| Observer.CallObserver.RecordSegment | services/ai-agent-worker/worker/pipeline/observer.py:276-306 | an utterance takes the next number, unless transcription is off or nothing was said |
| Observer.CallObserver.OnConversationItem | services/ai-agent-worker/worker/pipeline/observer.py:331-372 | items of the roles user and assistant are recorded the same way, as CALLER and as AI, and others are not |
| Observer.CallObserver.TakeBatch | services/ai-agent-worker/worker/pipeline/observer.py:553-563 | at most fifty records leave the queue, oldest first, split into segments and events |
| Observer.CallObserver.CommitBatch | services/ai-agent-worker/worker/pipeline/observer.py:565-635 | a committed batch is saved; without a transcript row its segments are not |
| Observer.CallObserver.RollBackBatch | services/ai-agent-worker/worker/pipeline/observer.py:565-635 | a failed batch is lost, counted or not |
| Observer.NextConserves | services/ai-agent-worker/worker/pipeline/observer.py:319-325 | no step creates, duplicates or forgets a record |
| Observer.NextStaysInOrder | services/ai-agent-worker/worker/pipeline/observer.py:553-635 | no step breaks the order of numbers across saved, in-flight and queued segments |
| Observer.SettleTallies | services/ai-agent-worker/worker/pipeline/observer.py:565-635 | the segment counter exceeds the rows exactly by what late failures counted |
| Observer.NothingIsLostSilently | services/ai-agent-worker/worker/pipeline/observer.py:235-325 | in every run the queue keeps its limit, every record is in exactly one place, and saved segments are strictly increasing |
| Observer.CloseLeavesTheRest | services/ai-agent-worker/worker/pipeline/observer.py:235-255 | whatever still happens after closing, in any order, at most one batch more is saved, and what was queued beyond fifty is never saved |
| Observer.UndisturbedCloseFlushesOneBatch | services/ai-agent-worker/worker/pipeline/observer.py:235-255 | undisturbed, closing takes exactly the oldest fifty, and leaves nothing exactly when there were no more |
| Observer.Turns.TurnFor | services/ai-agent-worker/worker/pipeline/observer.py:482-494 | an utterance gets the turn of its id or a new one, at most 65 turns are kept, and making room evicts an oldest one |
| Observer.CallObserver.Start | services/ai-agent-worker/worker/pipeline/observer.py:211-233 | starting creates the transcript row exactly when transcription is on |
| Observer.QueueIsSaved | services/ai-agent-worker/worker/pipeline/observer.py:553-635 | while batches are taken and committed, whatever is queued is saved, every segment in its order |
| Observer.OfferedIsSaved | services/ai-agent-worker/worker/pipeline/observer.py:276-325 | an utterance or event offered while there is room is then saved as it was offered |
| Observer.UtteranceJoinsTexts | services/ai-agent-worker/worker/pipeline/observer.py:344-350 | an utterance in parts is its texts, a space apart and in order |
| Templates.TokensKeepTheText | services/shared/shared/tools.py:16 | reading a template into literals and placeholders loses nothing of it |
| Templates.ExtractVariables | services/shared/shared/tools.py:36-41 | the names are exactly those of the placeholders of all texts, sorted and without duplicates |
| Templates.ExtractionIsUnique | services/shared/shared/tools.py:36-41 | there is only one such list |
| Templates.FilledIff | services/shared/shared/tools.py:44-58 | filling succeeds exactly when every name has a value, and otherwise names the first that has none |
| Templates.SubstituteSucceedsIff | services/shared/shared/tools.py:36-58 | substitution succeeds exactly when every extracted variable has a value |
| Templates.PlaceholderMatches | services/shared/shared/tools.py:16 | a placeholder is matched whole, whatever whitespace it holds and whatever follows |
| Templates.MatchIsPlaceholder | services/shared/shared/tools.py:16 | and nothing else is matched |
| Templates.PrintedTemplatesFillIn | services/shared/shared/tools.py:44-58 | on printed templates substitution is the concatenation of literals and values: single braces stay and values are not expanded again |
| Templates.PrintedTemplatesNameTheirHoles | services/shared/shared/tools.py:36-41 | and the names found are those of the placeholders |
| Tools.ExecuteHttp | services/ai-agent-worker/worker/tools/http.py:56-107 | retries server and transport errors only, up to the attempts, and returns the last reply's result |
| Tools.MissingNames | services/shared/shared/tools.py:115-129 | the names reported are the required ones omitted, null or empty |
| Tools.AdmittedIff | services/ai-agent-worker/worker/tools/executor.py:52-80 | a call is admitted exactly when it is granted, complete, free of denied values and within its limit |
| Tools.ToolRuntime.Admit | services/ai-agent-worker/worker/tools/executor.py:52-80 | refuses with the first failing check, or spends one call |
| Tools.RequestsAreBounded | services/ai-agent-worker/worker/tools/executor.py:73-93 | however invocations interleave, a tool limited to n calls makes at most n x (1 + max(0, retries)) requests |
| Tools.BudgetIsSpentByEligibleCalls | services/ai-agent-worker/worker/tools/executor.py:52-80 | in any interleaving exactly the first n eligible calls of a tool limited to n are admitted, and all without a limit: refusals spend nothing |
| Tools.OthersMakeNoRequests | services/ai-agent-worker/worker/tools/executor.py:52-86 | builtins make no requests, and tools not granted are never counted or run |
| Tools.AdmittedCallMakesItsRequests | services/ai-agent-worker/worker/tools/executor.py:73-93 | an admitted HTTP call makes exactly the requests that one execution makes of the same replies |
| Tools.FinishedCallMakesNone | services/ai-agent-worker/worker/tools/executor.py:82-86 | a call that is finished before its first request never makes any |
| Tenants.TenantRepository.Get | services/configuration-api/app/db/repository.py:108-117 | finds the tenant's row of that id or nothing |
| Tenants.TenantRepository.List | services/configuration-api/app/db/repository.py:119-132 | a page of the tenant's rows |
| Tenants.TenantRepository.Count | services/configuration-api/app/db/repository.py:134-140 | how many rows the tenant has |
| Tenants.TenantRepository.Exists | services/configuration-api/app/db/repository.py:142-143 | whether the tenant has the row |
| Tenants.TenantRepository.Add | services/configuration-api/app/db/repository.py:149-168 | stamps the tenant, or refuses a row of another and writes nothing; a taken id is refused |
| Tenants.TenantRepository.Delete | services/configuration-api/app/db/repository.py:170-184 | deletes the tenant's row of that id and says whether there was one |
| Tenants.OthersAreUntouched | services/configuration-api/app/db/repository.py:149-184 | no operation touches a row that is not the tenant's |
| Tenants.OnlyOwnRowsMatter | services/configuration-api/app/db/repository.py:98-184 | answers and effects depend on the tenant's own rows only, but for a taken id on adding |
| Tenants.AddTellsWhetherTheIdIsTaken | services/configuration-api/app/db/repository.py:149-168 | that exception, exactly |
| Tenants.TenantsDoNotInterfere | services/configuration-api/app/db/repository.py:69-184 | in any interleaving with other tenants a tenant is told exactly what it would be told alone |
| Tenants.ForeignRowsLookAbsent | services/configuration-api/app/db/repository.py:108-117 | another tenant's row cannot be told from one that does not exist |
| Tenants.ReadsShowOwnRows | services/configuration-api/app/db/repository.py:98-132 | rows found or listed are the tenant's rows of that table |
| Tenants.PagesTile | services/configuration-api/app/db/repository.py:119-132 | consecutive pages show every row once, in order |
| Tenants.DeletedIsGone | services/configuration-api/app/db/repository.py:170-184 | after a deletion no row of the table has that id and tenant, every selection without them is as it was, other tables are too, and the id is not found |
| Tenants.AddedIsFound | services/configuration-api/app/db/repository.py:149-168 | an added row stands last in the table with the tenant's stamp, is found under its id, and is not found once deleted |
| Tenants.SelectKeepsOrder | services/configuration-api/app/db/repository.py:98-106 | a filtered select gives every row that satisfies the filter, as often as it is stored and in storage order |
| Tenants.RequestsAreServedInTurn | services/configuration-api/app/db/repository.py:69-184 | in a run of many tenants each request changes the database as one operation does, and only its tenant is answered |
| CallState.CallStateTracker.Transition | services/ai-agent-worker/worker/call_state.py:81-142 | a legal transition that commits moves the row, the log and the tracker together; otherwise nothing moves |
| CallState.CallStateTracker.RecordEvent | services/ai-agent-worker/worker/call_state.py:153-160 | other events are appended without touching the state |
| CallState.CallStateTracker.PerformAll | services/ai-agent-worker/worker/call_state.py:81-160 | calling the two methods one after another is a run of the specification |
| CallState.TransitionsGoForward | services/shared/shared/models/enums.py:44-89 | every transition goes forward, and terminal states are exactly those without a way out |
| CallState.WaysIn | services/shared/shared/models/enums.py:44-89 | the states from which each state may be entered: stages one by one, the six endings each from where it makes sense |
| CallState.ReplayReachesTheState | services/ai-agent-worker/worker/call_state.py:81-142 | every state change recorded starts where the ones before it lead and is legal; replaying them ends in the tracker's and the row's state, at most seven changes long |
| CallState.EndTimeMarksTheEnd | services/ai-agent-worker/worker/call_state.py:102-121 | an end time is written exactly once, when a terminal state is entered |

## Left out

- HTTP, SQL, LiveKit, audio and S3 plumbing, provider adapters, health endpoints, logs and metrics labels: calls into code that
  cannot be seen here. What they answer is a parameter.
- The frontend, the command line, migrations, schemas, cryptography, prompts, summaries, embeddings and document extraction:
  wiring, single-field checks and external libraries.
- Floating point: latencies, delays and percentiles are reals, so rounding is not modelled.
- The clocks and the time zone database: opening hours take the present weekday, date and time of each known zone.
- ScheduleConverges: LiveKit never hands out an id twice and a call that raises has changed nothing; creations for the rows in
  question succeed, no two tasks of one of them overlap, and none of them crashes. Phone numbers, passwords and configuration
  are not edited during a run, and drift checks and deletions of rows are not steps of it. Flushes take no row lock here, so
  more interleavings are admitted than a database allows. The password is a column of the trunk here, as it reads once opened.
- NoNewOrphans: a call to LiveKit that raises has changed nothing, so a creation that LiveKit carries out and does not answer
  is not modelled, and a commit that raises has written nothing. No two tasks of one row overlap; `OverlapLeavesAnOrphanIff`
  and `RuleOverlapLeavesAnOrphanIff` say what happens when two of them do.
- OverlapLeavesAnOrphanIff: no third task of the row runs beside the two, neither of them crashes, what they ask LiveKit to
  create is created, and their deletions fail only on absent ids.
- RoutingIgnoresStorageOrder: the database's collation of names is a parameter, any total order.
- ResolveDestinationFinds: names are lower-cased for ASCII letters only and arrive trimmed.
- ListsTrunks: LiveKit's listing is taken to show every held resource once, whatever order it has.
- WhisperReachesOnlyTheHuman: assumes that the permission setter works and that published tracks have a sid, and that status
  writes of one transfer do not overlap (`OvertakenPatchBreaksThePath` says what goes wrong when a patch is overtaken). Only one
  request starts a run; two requests overlapping before the first write are not modelled.
- EveryRunIsSafe: a room and a speech synthesiser are bound; without them the original plays nothing and sets no permissions.
- NoDestinationIsTriedTwice: dialling itself, SIP headers and the summary's generation are answers of the world.
- The hold loop: `play` stops the task that runs the loop, so nothing is claimed about continuous hold audio; successive hold
  tracks are not told apart, and creating and publishing the announcement's track is one step.
- Unsubscribing and rejoining the two remote legs is a call to LiveKit that either raises or not; only the permissions of the
  worker's own tracks are modelled.
- The monotonic clock's deadline of a whisper is the moment at which the player ends, chosen by the event.
- StopIsImmediate: a frame counts as written when it is handed to the source; what the source still buffers is not modelled.
- NothingIsLostSilently: a transaction that raises is taken to have rolled back; one that commits and then raises is not told
  apart. Latencies, confidences and timestamps of records are not modelled.
- TurnFor: of a turn only its creation time is kept.
- ExecuteHttp: building headers, credentials and trimming the response are one answer, sendable or not.
- Admit: JSON values are compared by their encoding, so Python's equality of numbers and booleans is not modelled.
- Add: staging a row and flushing it are one step, so a conflict is told at once.
- RowFollowsTheTable: after the request an advance moves row and memory in one step; `AgreeIff` covers the gap between the
  commit and the return of any advance.
- List: without an order the rows come in storage order, where a database is free to choose; a page needs limits that are not
  negative.
- Transition: `duration_seconds` is not modelled, and two transitions of one call do not overlap.
- `config_loader.py`, `memory.py`, audit redaction and request-schema validation: row copying and structural checks that would
  add easy members only.
