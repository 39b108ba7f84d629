# Heterogeneous accelerator federation: a verified model

A coordinator keeps a federation of accelerators. It observes devices, walks them through a
lifecycle, decides which workload may run where, plans and commits migrations, and survives
restarts through a store. This project models that coordinator, its decision engines and the byte
formats it relies on, and proves what holds on every run and for every input.

`dafny verify dfyconfig.toml` checks the whole project.

## How the model is laid out

| files | what they hold |
|---|---|
| `Prelude`, `Ordering` | error codes, saturating generations, stable sorting, binary search |
| `Version`, `VersionRange`, `Token`, `Vocabulary` | version order, parsing and printing, canonical tokens, the names of capabilities and their kinds |
| `Capability`, `CapabilityTable`, `CapabilityCodec` | capability values and sets, the sorted table with binary search, its wire form |
| `Portability`, `Compatibility`, `CompatibilityTheorems`, `Fleet`, `Ranking`, `Migration` | the decision engines |
| `RangeMeaning`, `RequirementMeaning`, `PolicyMeaning`, `PortabilityMeaning` | what ranges, requirements, policies and classes mean, stated on the versions, records and token sets themselves |
| `StoredForm` | what the store's decoder accepts of advertisements, workloads and policies, and what it gives back |
| `Federation` | the state machine: for each operation its refusals and its effect |
| `FederationInvariants`, `FederationSteps` | what one step keeps |
| `FederationRuns`, `FederationHistory`, `PlanHistory`, `FederationRecovery` | what whole runs keep, restarts included |
| `FederationAuthority`, `FederationContents` | who may act when, stated on the states and generations themselves; what members, plans and workloads hold |
| `FederationStore`, `FederationPublication`, `RestartVerdict` | when the store can be opened again, when it holds the live state, what a restart changes |
| `FederationLimits` | what is not promised, with the runs that show it |
| `FederationRuntime` | the coordinator as a mutable object, every method proved to be one step of the machine |
| `Sha256`, `Crc32`, `Fnv`, `LengthField`, `Frame`, `Bytes`, `RecordCodec` | streaming hash, checksums, frames and codecs |

A *world* is a live instance (or none) together with the last snapshot that was written. An
*event* runs one operation or opens a new instance on the store, and says whether its write
succeeded. A *run* is any sequence of events from a world with an empty store and no live
instance. The theorems over runs therefore cover crashes, failed writes and any number of restarts.

Identities are structural: an accelerator is its device, agent, boot and generation, and a decision
or plan is identified by everything its fingerprint covers. Clocks, the outcome of a write and the
choice among cached decisions that are equally fit for eviction are inputs of an event.

Generations saturate at 2^64 - 1, where an advance no longer distinguishes anything. Theorems that
count on an advance say so: `EpochsRemain` and `GenerationsRemain` assume that the counter has
not been used up.

Capability sets are compared by their digests, which leave out the build metadata of versions.
`Content` is what a digest covers, and "the same capabilities" means the same content. Policies and
workloads have digests of their own, which do not see the order of lists either.

## Where the code and its documentation differ

The model follows the code.

- The documentation says that a reader never observes state that was not durably published
  (README.md:315-316 of the repository). A failed write leaves the change in memory and reports the
  failure. `FederationLimits.FailedWriteShows` is a run whose last operation leaves a member that
  the store does not have. `FederationPublication.PublishedIffWritten` gives the exact condition.
- Planning a migration from an accelerator to itself fails in the planner, and leaves an advanced
  generation behind without a write. `FederationLimits.SelfMigrationLeavesStoreBehind` is the run.
  `FederationPublication.OnlySelfPlansMoveUnwritten` says that nothing else does this.
- Accepted operations can leave a store that the next open refuses.
  `FederationLimits.EmptyUpdateLocksTheStore` (an update that withdraws every capability),
  `FederationLimits.StarRangeLocksTheStore` (a workload that admits every version) and
  `FederationLimits.ShoutedVendorLocksTheStore` (a policy list that is not in canonical form) are
  runs. `FederationStore.ReadableIff` gives the exact condition for every operation, and
  `FederationStore.StoreStaysReadable` for whole runs. The condition also covers long prereleases
  and token sets, repeated topology references, long explanations, full histories and full stores.
- A restart can withhold an approval: a policy without a bound on the runtime version comes back
  with a bound that admits everything. `RestartVerdict.RestartWithholdsApproval` is the case,
  `RestartVerdict.RestartedVerdict` the exact condition.
- Prerelease lists are compared as if the shorter one were padded with empty identifiers, and
  numbers beyond 32 bits as if they were zero. This departs from item 11 of Semantic Versioning
  2.0.0. `Version.ShorterPrereleaseRanksHigher` and `Version.OversizedNumberReadsAsZero` are the
  cases, `Version.PrecedenceMatchesSemVer` gives the exact condition.
- Two agents can each hold an unretired incarnation of one device.
  `FederationLimits.TwoAgentsCanHoldOneDevice` is the run, `FederationLimits.OneIncarnationPerAgent`
  the exact condition.
- Omitting a capability can turn a refusal into an approval, because some policy lists are skipped
  when the value is missing. `CompatibilityTheorems.OmissionCanHelp` is the case,
  `CompatibilityTheorems.OmissionNeverHelps` the exact condition.
- The steps of a plan are ordered by name. `Migration.StepsKeepOrder` says for which outcomes this
  is the intended order, and `Migration.ValidationComesLate` that state is transferred before the
  transfer is validated exactly when it is moved natively.
- A plan can name a rebuild that its destination does not offer. `Migration.RepackagingNobodyOffers`
  is the case, `Migration.StepsAreBacked` the exact condition.

## Model

| member | source | states |
|---|---|---|
| `Prelude.Next` | include/haf/core/ids.hpp:108-113 | the next generation is never smaller, and is larger exactly below the maximum |
| `FederationInvariants.EffectInv` | src/federation/federation.cpp:382-1440 | every accepted operation keeps the invariant: keys, records and descriptors name the same incarnation, no two unretired incarnations of one device under one agent, no plan from the future, movable plans bound to the current epoch and policy, cached decisions bound to the current epoch and policy and within the bound |
| `FederationInvariants.OpenedInv` | src/federation/federation.cpp:90-202 | recovery establishes the invariant from any store that satisfies it |
| `FederationInvariants.StepInv` | src/federation/federation.cpp:71-247 | the invariant of the live instance and of the store survives every event, whatever becomes of its write |
| `FederationInvariants.EvaluationBinds` | src/federation/federation.cpp:906-967 | a decision carries the epoch, the generations and the revision it was computed from |
| `FederationInvariants.PlanBinds` | src/federation/federation.cpp:1205-1303 | a new plan names its endpoints and is bound to the epoch, the policy, the endpoint capability generations and the generation that planning itself creates |
| `FederationSteps.EveryMemberSteps` | src/model/accelerator.cpp:17-42 | under every operation each member keeps its identity, its state moves along an edge of the lifecycle table, equal capability generations mean equal capabilities up to build metadata, retirement freezes, only a transition activates, and the descriptor changes only when its own advertisement is accepted |
| `FederationSteps.StepVersioned` | src/federation/federation.cpp:382-1440 | the generation never falls, and while it stands still members, policy, workloads and plans are unchanged |
| `FederationSteps.PlanningNeverOverwrites` | src/federation/federation.cpp:1243-1284 | below the maximal generation the identity of a new plan is never that of a stored one |
| `FederationSteps.SelfPlanFails` | src/engine/migration_planner.cpp:100-105 | in every state that satisfies the invariant the planner fails if and only if source and destination are the same |
| `FederationSteps.EveryPlanSteps` | src/model/migration.cpp:13-25 | under every operation each stored plan stays and moves only along an edge of the plan table |
| `FederationSteps.PlansComeFrom` | src/federation/federation.cpp:1205-1303 | a plan that was not there before was made by an accepted planning operation, and is what the planner returned |
| `FederationSteps.DecisionsComeFrom` | src/federation/federation.cpp:969-1008 | a decision that was not cached before was evaluated by this operation from the state it ran in |
| `FederationRuns.Reachable` | src/federation/federation.cpp:71-1646 | the invariant holds in every world of every run |
| `FederationRuns.GenerationNamesContent` | src/federation/federation.cpp:382-1440 | between two moments of one process with the same generation, members, policy, workloads and plans are the same |
| `FederationRuns.CacheIsCoherent` | src/federation/federation.cpp:969-1008 | in every world of every run, each cached decision of the current generation is one that the present state would produce |
| `FederationRuns.DecisionsAreMadeHere` | src/federation/federation.cpp:969-1008 | in every run, each cached decision was made by an accepted evaluation or planning operation of the running process |
| `FederationRuns.CurrencyIsOneComparison` | src/federation/federation.cpp:1129-1203 | on a coherent cache both the currency check and the sweep come down to comparing the federation generation |
| `FederationRuns.CurrentDecisionsAreFresh` | src/federation/federation.cpp:1179-1203 | in every run, a cached decision that passes the currency check was made by an operation of this process, and evaluating it now with the source and the freshness verdict of that operation returns it again |
| `FederationRuns.EvaluationIsStable` | src/federation/federation.cpp:906-1008 | within one process, evaluations at equal generations with equal freshness verdicts agree in every field |
| `FederationRuns.SweepIsExact` | src/federation/federation.cpp:1129-1165 | in every run the bulk sweep keeps exactly the decisions the currency check accepts |
| `FederationHistory.RunsStaySynced` | src/federation/federation.cpp:236-247 | with successful eager writes the store holds the members and plans of the live instance throughout every run |
| `FederationHistory.CapabilityGenerationNamesContent` | src/federation/federation.cpp:505-542 | along every run with successful writes, restarts included, a member keeps its identity, its capability generation never falls, and equal generations hold identical capabilities up to build metadata |
| `FederationHistory.MembersEvolve` | src/federation/federation.cpp:683-704 | the same within one process, whatever becomes of its writes |
| `FederationHistory.FencedMembersMustReturn` | src/model/accelerator.cpp:17-42 | a fenced member leaves the fenced, observed and retired states only after it was observed and then admitted again, across any restarts |
| `PlanHistory.ReopenedPlansAreOld` | src/federation/federation.cpp:181-195 | after a restart every plan is terminal and of an older epoch; terminal plans are untouched and the others are aborted |
| `PlanHistory.PlansAreBornHere` | src/federation/federation.cpp:1243-1284 | a plan bound to the running epoch was made by an event of this very process |
| `PlanHistory.AdvanceSeesPlannedEndpoints` | src/federation/federation.cpp:1348-1367 | an accepted advance finds at both endpoints the capabilities the plan was computed from, up to build metadata |
| `PlanHistory.PolicyChangeAborts` | src/federation/federation.cpp:803-813 | a policy change aborts every plan that could still move |
| `PlanHistory.LivePlansAreBound` | src/federation/federation.cpp:181-195 | a plan that can still move is bound to the current epoch and policy |
| `PlanHistory.MovingPlansClimbed` | src/federation/federation.cpp:1324-1398 | a plan that can still move has climbed stage by stage since its creation within one process, with no policy change and no gap |
| `PlanHistory.CommittedPlansPassedEveryStage` | src/model/migration.cpp:13-25 | a plan known as committed, in memory or in the store, was committed by such a climb |
| `PlanHistory.ClimbVisits` | src/model/migration.cpp:13-25 | a climb visits every stage up to the one it reached, and never goes back |
| `PlanHistory.TerminalPlansAreFinal` | src/model/migration.cpp:85-99 | along every run with successful writes no stored plan disappears, and a terminal one never changes |
| `FederationRecovery.EpochsRise` | src/federation/federation.cpp:90-202 | with eager writes every reopened instance has a strictly larger epoch than everything that ran before |
| `FederationRecovery.WrongEpochIsRefused` | src/federation/federation.cpp:289-340 | an operation whose epoch-checking claim names another epoch is refused and changes nothing |
| `FederationRecovery.StaleClaimsAreRefused` | src/federation/federation.cpp:289-305 | an epoch-checking claim issued before a restart is refused by every claim-taking operation after it |
| `FederationRecovery.RecoveryIsConservative` | src/federation/federation.cpp:90-202 | a reopened federation has no active member, no decisions and only terminal plans, and loses no member |
| `FederationRecovery.IdleFederationIsIneligible` | src/engine/compatibility_engine.cpp:464-469 | with no active member every evaluation that returns a decision is ineligible |
| `FederationRecovery.NothingActiveBeforeActivation` | src/federation/federation.cpp:137-151 | from a reopen until an accepted activation no member is active, whatever else happens |
| `FederationRecovery.NothingEligibleBeforeActivation` | src/federation/federation.cpp:90-202 | and hence every decision is ineligible |
| `FederationRecovery.RestoredEvidenceStaysQuarantined` | src/federation/federation.cpp:163-170 | evidence restored from the store stays marked for revalidation, through any operations and restarts, until the member's own advertisement is accepted anew |
| `FederationRecovery.QuarantinedIsNeverEligible` | src/federation/federation.cpp:934-946 | a member with such evidence is never eligible for a workload with a hard requirement on a decaying observation |
| `FederationRecovery.RestoredEvidenceIsNeverEligible` | src/federation/federation.cpp:163-170 | the two together, over whole runs |
| `FederationAuthority.LiveBootBarsOthers` | src/federation/federation.cpp:28-34 | while an incarnation of a device is admitted, active or draining, no report of that device from another boot is accepted |
| `FederationAuthority.SecondBootIff` | src/federation/federation.cpp:409-434 | a report that is otherwise in order is refused as a duplicate live boot if and only if an incarnation of its device with another boot is admitted, active or draining |
| `FederationAuthority.AuthorityIsNotUsurped` | src/federation/federation.cpp:425-461 | in every run an admitted, active or draining member is retired only by its own transition or by a report of the same device, agent and boot |
| `FederationAuthority.StatesChangeOnlyBy` | src/federation/federation.cpp:382-1440 | the state of every member after every accepted operation: a transition moves the member it names, a report retires the other incarnations under the same agent, a commit drains a source that was active or degraded, and nothing else changes any state |
| `FederationAuthority.TransitionIff` | src/model/accelerator.cpp:17-42 | with a claim that holds, each target state is entered from exactly the states listed for it, and the member is then in that state; from any other state the transition is invalid |
| `FederationAuthority.TransitionArrives` | src/federation/federation.cpp:569-637 | after an accepted transition the member is in the state that was asked for |
| `FederationAuthority.ReportedMemberServes` | src/federation/federation.cpp:463-637 | a newly reported member is observed, and can be admitted and then activated |
| `FederationAuthority.NobodyIsStuck` | src/model/accelerator.cpp:17-42 | every member that is not retired can be brought to serve by at most three accepted transitions |
| `FederationAuthority.ClaimsPassIff` | src/federation/federation.cpp:289-340 | a claim passes if and only if every identity and generation it asks to check is the current one |
| `FederationAuthority.FirstDisagreement` | src/federation/federation.cpp:289-340 | a claim that is wrong in one respect is refused with the error for that respect, and a wrong epoch or federation generation is reported before anything about the member |
| `FederationAuthority.WrongClaimsAreRefused` | src/federation/federation.cpp:289-340 | every accepted operation carries a claim that holds, for the member it names where it names one; a refused operation changes nothing |
| `FederationAuthority.PassedGenerationsAreRefused` | src/federation/federation.cpp:289-305 | once the federation generation has moved on, a claim that checks an earlier one is refused for the rest of the process |
| `FederationAuthority.UpdatesOutdateClaims` | src/federation/federation.cpp:683-704 | an accepted update makes every claim that checks the capability generation before it useless for that member |
| `FederationAuthority.AdvanceIff` | src/federation/federation.cpp:1324-1398 | a plan advances if and only if its epoch, its policy and the generations of both endpoints are current and the stage is entered from the present one; a plan that is not current is stale, any other stage invalid |
| `FederationAuthority.AbortIff` | src/federation/federation.cpp:1404-1440 | a plan can be aborted exactly from the stages that can still move |
| `FederationAuthority.PlansCanCommit` | src/model/migration.cpp:13-25 | a planned and current plan can be carried through all its stages to the commit |
| `FederationAuthority.RepeatsChangeNothing` | src/federation/federation.cpp:569-1398 | asking again for the state a member is in, or for the stage a current plan is at, is accepted and changes nothing |
| `FederationAuthority.CommittedSourceStopsServing` | src/federation/federation.cpp:1371-1385 | after a commit the source of the plan is ineligible for every workload |
| `FederationAuthority.FreshMeansYoung` | src/model/evidence.cpp:170-179 | a member is fresh if and only if none of its evidence awaits revalidation and none that decays is older than the budget of the policy |
| `FederationAuthority.FreshnessOnlyFades` | src/model/evidence.cpp:170-179 | what is fresh later, under a budget that is no larger, was fresh before |
| `FederationAuthority.RestartedStates` | src/federation/federation.cpp:137-151 | after a restart admitted, active, degraded and draining members are degraded and all others as they were |
| `FederationAuthority.RestartBarsNoBoot` | src/federation/federation.cpp:28-34 | right after a restart no boot is refused as a duplicate |
| `FederationContents.EvidenceIsRestored` | src/federation/federation.cpp:163-170 | after a restart each piece of evidence is to be revalidated, has lost its age, is of the next generation and otherwise says what it said |
| `FederationContents.MembersAreAttested` | src/model/accelerator.cpp:119-197 | in every world of every run, in memory and in the store, the evidence of a member is about that member and of its provenance, native support rests on real evidence, nothing without evidence claims a payload, and every capability has a value of its own kind |
| `FederationContents.PlansCompareAdvertisements` | src/federation/federation.cpp:1243-1284 | the class of a new plan is the class between the two advertisements the members hold, under the vendors these name and the consent of the policy |
| `FederationContents.RegisteredUnder` | src/federation/federation.cpp:841-875 | an accepted workload is found under its own identity, or the one derived from its name, with its requirements and their revision, and no other workload changes |
| `FederationContents.ReportsAgree` | src/model/accelerator.cpp:119-165 | an accepted report names the incarnation of its own device, agent, boot and generation, claims no other vendor than it states, and lists its topology in order |
| `FederationContents.ReportsTakeHold` | src/federation/federation.cpp:441-542 | after an accepted report the member holds the reported capabilities, evidence and provenance, and every other member is described as before |
| `FederationContents.UpdatesTakeHold` | src/federation/federation.cpp:683-704 | after an accepted update the member holds exactly the new capabilities with the new evidence, and every other member is as before |
| `FederationContents.PolicyTakesHold` | src/federation/federation.cpp:779-839 | a new policy is in force at once: no decision is left, every member is stamped with it and every plan is terminal |
| `FederationContents.DecisionsJudgeMembers` | src/federation/federation.cpp:906-967 | outcome, score and class of an evaluation are those of the member as it stands, under the policy in force, as fresh as it is now and open for work exactly when active, moved from what the source advertises |
| `FederationContents.NewestIsKept` | src/federation/federation.cpp:988-997 | with a clock that advances, the decision just made is never the one evicted |
| `FederationContents.WorkloadsAreConsistent` | src/model/workload.cpp:120-350 | in every world of every run, in memory and in the store, hard requirements carry no weight, nothing is asked twice, and a workload that only a live move can host needs its state moved |
| `FederationContents.LiveThresholdMovesState` | src/model/workload.cpp:346-350 | hence in every run a plan for such a workload moves native state |
| `FederationStore.ReadableIff` | src/federation/federation.cpp:382-1440 | in a reachable, readable state an accepted operation leaves a readable store if and only if its inputs pass the checks that only the decoder makes: on topology references and prereleases, on emptied or contradicting advertisements, on ranges, values and clauses of workloads, on the lists and sizes of policies, on explanations, histories and counts |
| `FederationStore.FirstOpenReadable` | src/federation/federation.cpp:90-102 | a first open publishes a readable store if and only if its name is short enough and its policy is absent or decodes, which for a policy with its own identity means that its lists and sizes fit |
| `FederationStore.RecoveredReadable` | src/federation/federation.cpp:103-202 | recovery of a store that decodes publishes one that decodes, unless the stored name is empty and the configured one too long |
| `FederationStore.StoreStaysReadable` | src/federation/federation.cpp:236-247 | along every run the store and everything that could be written to it decode throughout, if and only if every accepted operation and open passes those checks |
| `FederationPublication.PublishedIffWritten` | src/federation/federation.cpp:236-247 | at any point of any run the store holds the live members, policy, workloads and plans if and only if this process wrote it since the generation last moved |
| `FederationPublication.StoreNeverLeads` | src/federation/federation.cpp:236-247 | in every run the stored generation is never above the live one |
| `FederationPublication.OnlySelfPlansMoveUnwritten` | src/federation/federation.cpp:1243-1284 | an accepted operation advances the generation without attempting a write if and only if it plans a migration of an accelerator to itself, and then it changes nothing else |
| `RestartVerdict.StoredVerdict` | src/model/policy.cpp:263-396 | outcome and class are the same before and after the store, except that approval is withheld if and only if the policy had no bound on the runtime and the runtime is unknown |
| `RestartVerdict.RestartedVerdict` | src/federation/federation.cpp:103-202 | the same for every workload, accelerator and source of a federation recovered from any store that decodes and whose policy carries its own identity |
| `RestartVerdict.RestartWithholdsApproval` | src/core/version.cpp:222-285 | a valid workload, policy and advertisement that are approved before a restart and undecided after it |
| `StoredForm.RequirementDecodes` | src/model/workload.cpp:203-296 | a valid requirement is read back, without build metadata, if and only if its value and clauses are within the limits and no clause admits every version |
| `StoredForm.WorkloadDecodes` | src/model/workload.cpp:419-480 | a valid workload is read back if and only if all its requirements are |
| `StoredForm.StoredWorkloadPrints` | src/model/workload.cpp:419-480 | what is read back has the digest of what was stored |
| `StoredForm.PolicyDecodes` | src/model/policy.cpp:263-396 | a policy with its own identity is read back, with sorted lists, if and only if its lists are canonical, without repetition and short, its sizes fit, and nothing is both wanted and unwanted |
| `StoredForm.DecodedPolicyFits` | src/model/policy.cpp:263-396 | whatever the decoder gives back would be read back again |
| `StoredForm.StoredBodyPrints` | src/model/policy.cpp:263-396 | sorting the lists and rereading the range do not change the identity of a policy |
| `FederationLimits.OneIncarnationPerAgent` | src/engine/audit.cpp:157-177 | in every run, two unretired incarnations of one device are the same member if and only if they have the same agent |
| `FederationLimits.TwoAgentsCanHoldOneDevice` | src/federation/federation.cpp:425-447 | two reports and two admissions leave one device admitted under two agents |
| `FederationLimits.EmptyUpdateLocksTheStore` | src/federation/federation.cpp:683-704 | an accepted update that withdraws every capability makes the next open fail |
| `FederationLimits.StarRangeLocksTheStore` | src/model/workload.cpp:258-285 | a run in which an accepted workload with the range that admits every version makes the next open fail |
| `FederationLimits.ShoutedVendorLocksTheStore` | src/model/policy.cpp:26-45 | a run in which an accepted policy with a vendor in capitals makes the next open fail |
| `FederationLimits.NextOpenFailsIff` | src/federation/federation.cpp:103-107 | after an accepted and written operation the next open fails if and only if the operation did not pass the checks that only the decoder makes |
| `FederationLimits.FailedWriteShows` | src/federation/federation.cpp:544-559 | a run in which an accepted observation leaves a live member that the store does not have |
| `FederationLimits.SelfMigrationLeavesStoreBehind` | src/engine/migration_planner.cpp:103-105 | a run in which every write succeeds and planning leaves the live generation ahead of the stored one |
| `FederationRuntime.IndexedDuplicate` | src/federation/federation.cpp:409-434 | when the indexed incarnations show no conflict, a scan of all members shows none |
| `FederationRuntime.IndexAdds` | src/federation/federation.cpp:485-491 | appending a new member to its device's list keeps the index listing every member exactly once |
| `FederationRuntime.IndexCarries` | src/federation/federation.cpp:171-172 | the index stays right under any change that keeps the members and their devices |
| `FederationRuntime.ActsAreSteps` | src/federation/federation.cpp:236-247 | whatever does the act of an operation takes one step of the machine |
| `FederationRuntime.Runtime.PersistLocked` | src/federation/federation.cpp:236-247 | the store becomes the snapshot of the live state exactly when a write is due and succeeds |
| `FederationRuntime.Runtime.ClaimedByLiveBoot` | src/federation/federation.cpp:409-434 | the indexed duplicate pass decides as a scan of all members would |
| `FederationRuntime.Runtime.RetireOlder` | src/federation/federation.cpp:441-461 | the indexed supersession pass retires exactly the older incarnations of the device under the same agent |
| `FederationRuntime.Runtime.Enroll` | src/federation/federation.cpp:441-491 | a new incarnation is added to the members and to the index |
| `FederationRuntime.Runtime.Refresh` | src/federation/federation.cpp:505-542 | a known incarnation is refreshed, advancing its capability generation exactly when the digest of its capabilities differs |
| `FederationRuntime.Runtime.Observe` | src/federation/federation.cpp:382-559 | does the act of the operation: refuses as the machine does and changes nothing, or puts the effect in place, stores it exactly when a write is due and succeeds, and returns the stored record; keeps the index right |
| `FederationRuntime.Runtime.Transition` | src/federation/federation.cpp:569-637 | likewise, and writes only when the state changes |
| `FederationRuntime.Runtime.UpdateCapabilities` | src/federation/federation.cpp:639-722 | likewise |
| `FederationRuntime.Runtime.SetPolicy` | src/federation/federation.cpp:779-839 | likewise, and returns the stamp of the adopted policy |
| `FederationRuntime.Runtime.AbortMovingPlans` | src/federation/federation.cpp:803-813 | aborts exactly the plans that can still move |
| `FederationRuntime.Runtime.RegisterWorkload` | src/federation/federation.cpp:841-875 | likewise, and returns the stored revision |
| `FederationRuntime.Runtime.EvidenceIsFresh` | src/federation/federation.cpp:934-946 | the evidence loop computes the freshness verdict |
| `FederationRuntime.Runtime.EvaluateLocked` | src/federation/federation.cpp:906-967 | evaluation on the object agrees with evaluation on its state |
| `FederationRuntime.Runtime.Oldest` | src/federation/federation.cpp:988-997 | finds a cached decision that no other is older than |
| `FederationRuntime.Runtime.EvictOldest` | src/federation/federation.cpp:988-997 | evicts down to the bound, never a younger decision while an older one stays |
| `FederationRuntime.Runtime.Evaluate` | src/federation/federation.cpp:969-1008 | likewise, returns the decision of the state it ran in, and evicts by age |
| `FederationRuntime.Runtime.SweepStale` | src/federation/federation.cpp:1129-1165 | removes exactly the decisions that do not survive and counts them |
| `FederationRuntime.Runtime.InvalidateStaleDecisions` | src/federation/federation.cpp:1129-1165 | likewise, and returns the number of decisions removed |
| `FederationRuntime.Runtime.IsCurrent` | src/federation/federation.cpp:1179-1203 | answers the currency check, or that the decision is not cached |
| `FederationRuntime.Runtime.JudgeEndpoints` | src/federation/federation.cpp:1205-1242 | refuses exactly when planning is refused, and otherwise yields the decisions of both endpoints |
| `FederationRuntime.Runtime.PlanMigration` | src/federation/federation.cpp:1205-1303 | likewise, with the error of the planner after the refusals, and returns the plan it stored |
| `FederationRuntime.Runtime.AdvanceMigration` | src/federation/federation.cpp:1324-1398 | likewise, writes only when the plan moves, and returns the stored plan |
| `FederationRuntime.Runtime.AbortMigration` | src/federation/federation.cpp:1404-1440 | likewise |
| `FederationRuntime.Runtime.Persist` | src/federation/federation.cpp:1468-1474 | likewise, writing whenever there is a store |
| `FederationRuntime.Runtime.Shutdown` | src/federation/federation.cpp:1631-1646 | likewise, writing only the first time |
| `FederationRuntime.Runtime.RestoreMembers` | src/federation/federation.cpp:137-172 | rebuilds members and index from a snapshot |
| `FederationRuntime.Runtime.Restore` | src/federation/federation.cpp:103-202 | rebuilds the whole recovered state: name, policy and workloads as the decoder gives them back, members degraded, plans aborted |
| `FederationRuntime.Runtime.Open` | src/federation/federation.cpp:71-88 | is the open event of the machine; a failed first write yields no instance |
| `Compatibility.JudgeRequirement` | src/engine/compatibility_engine.cpp:289-344 | the violated and open flags, the score, the reasons and the explanation of one requirement |
| `Compatibility.JudgeRequirements` | src/engine/compatibility_engine.cpp:289-344 | the requirement loop finds a violated hard requirement exactly when there is one, an open one exactly when there is one, and the total score, the reasons and the length of the longest explanation |
| `Compatibility.CheckRequired` | src/engine/compatibility_engine.cpp:346-547 | breached exactly when a required capability is known to be missing, open exactly when one is unknown |
| `Compatibility.CheckDenied` | src/engine/compatibility_engine.cpp:346-547 | breached exactly when a denied capability is present |
| `Compatibility.CheckTags` | src/engine/compatibility_engine.cpp:346-547 | breached exactly when a required tag is not one of the policy's |
| `Compatibility.CheckPolicy` | src/engine/compatibility_engine.cpp:346-547 | the policy pass agrees with its declarative form |
| `Compatibility.CheckPortability` | src/engine/compatibility_engine.cpp:470-547 | refused and open as the class of the move demands |
| `Compatibility.EvaluateCompatibility` | src/engine/compatibility_engine.cpp:250-574 | the looped evaluator refines the specification: ineligible if something is violated, otherwise undecided if something is open, otherwise eligible |
| `Compatibility.CanonicalKeepsFlags` | src/engine/compatibility_engine.cpp:31-49 | sorting the requirements changes neither flag |
| `CompatibilityTheorems.DeclarationOrderIsIrrelevant` | src/engine/compatibility_engine.cpp:31-49 | the whole decision is the same for every order of a valid workload's requirements |
| `CompatibilityTheorems.SoftPreferencesNeverDecide` | src/engine/compatibility_engine.cpp:563-572 | workloads with the same hard requirements have the same outcome |
| `CompatibilityTheorems.OmissionNeverHelps` | src/engine/compatibility_engine.cpp:357-374 | if a target is eligible without a record outside its closed namespaces, it is eligible with it if and only if no policy rule bars the record's presence |
| `CompatibilityTheorems.OmissionCanHelp` | src/engine/compatibility_engine.cpp:357-374 | a valid workload, policy and advertisement that become eligible when the vendor is left out |
| `CompatibilityTheorems.OmissionNeverHelpsUnderPlainPolicy` | src/engine/compatibility_engine.cpp:101-193 | under policies without such rules omission never turns another outcome into eligible |
| `CompatibilityTheorems.IdleMemberIsIneligible` | src/engine/compatibility_engine.cpp:464-469 | a target that accepts no new work is ineligible |
| `CompatibilityTheorems.StaleEvidenceIsNeverEligible` | src/engine/compatibility_engine.cpp:298-312 | stale evidence never satisfies a hard requirement on a decaying observation |
| `CompatibilityTheorems.ScoreFits64Bits` | src/engine/compatibility_engine.cpp:549-561 | the score of a valid workload, and every partial sum of its requirement scores, fits 64 signed bits |
| `CompatibilityTheorems.StrictBoundsAreStrict` | src/engine/compatibility_engine.cpp:134-141 | for every valid workload and advertisement, a value above or below a bound is never equal to it: the kinds agree |
| `CompatibilityTheorems.PreferencesPay` | src/engine/compatibility_engine.cpp:314-332 | evidence under which every preference fares at least as well never lowers the score |
| `RequirementMeaning.DecayingKeys` | src/engine/portability_engine.cpp:71-79 | the known names whose observations decay are exactly the health, free memory and stream ones |
| `RequirementMeaning.StatesDecide` | src/engine/compatibility_engine.cpp:101-133 | a stale or silent record leaves a requirement open; a degraded one violates it unless the policy admits that; a denied one violates everything except a demand for absence, which it satisfies |
| `RequirementMeaning.UsableDecides` | src/engine/compatibility_engine.cpp:101-193 | a usable value satisfies or violates every requirement, and satisfies presence and violates absence |
| `RequirementMeaning.SetOperators` | src/engine/compatibility_engine.cpp:101-193 | with a usable value, the four set operators are satisfied exactly when the token sets are related as the name says: all wanted tokens offered, all offered tokens wanted, the same and at least one offered, one in common |
| `RequirementMeaning.MoreTokens` | src/engine/compatibility_engine.cpp:101-193 | offering more tokens never loses a superset or an intersection requirement, and never mends a violated subset or membership one |
| `RequirementMeaning.EqualityOperators` | src/engine/compatibility_engine.cpp:101-193 | equality is satisfied exactly by the same value, where versions that compare equal are the same, and inequality exactly when equality is violated |
| `RequirementMeaning.OrderOperators` | src/engine/compatibility_engine.cpp:134-141 | the four bounds are satisfied exactly when the integers or versions are ordered as the name says |
| `RequirementMeaning.RangeOperator` | src/engine/compatibility_engine.cpp:101-193 | a range is satisfied exactly when every clause admits the version |
| `RequirementMeaning.HardRequirementsDecide` | src/engine/compatibility_engine.cpp:289-344 | one violated hard requirement makes the target ineligible, and an eligible target satisfies every hard requirement |
| `RequirementMeaning.EligibleOffersEveryToken` | src/engine/compatibility_engine.cpp:289-344 | an eligible target offers every token a hard superset requirement names |
| `RequirementMeaning.PreferencesArePriced` | src/engine/compatibility_engine.cpp:314-332 | a satisfied preference earns its weight in thousands and a violated one costs it in five hundreds, each to the nearest integer; an open one is worth nothing |
| `RequirementMeaning.ViolationsAreNamed` | src/engine/compatibility_engine.cpp:222-248 | a violated requirement gives one reason, with the error that belongs to the name or the family of its capability |
| `PolicyMeaning.PolicyMeans` | src/engine/compatibility_engine.cpp:346-469 | a policy forbids a target if and only if one of its rules does, each stated on the records of the advertisement; it is unsure if and only if a bound or a required capability is not told |
| `PolicyMeaning.ClassMeans` | src/engine/compatibility_engine.cpp:487-547 | a class is refused if and only if it is not portable, below the threshold of the workload, not binary where that is demanded, not among those allowed, or does not carry the state the workload needs |
| `PolicyMeaning.OutcomesMean` | src/engine/compatibility_engine.cpp:563-572 | the outcome from the rules: ineligible if and only if a hard requirement is violated, the policy forbids the target or the class of the move is refused, and otherwise undecided if and only if something is not known |
| `PolicyMeaning.StricterPolicyNeverHelps` | src/engine/compatibility_engine.cpp:346-572 | a target that is eligible under a policy is eligible under every policy that is no stricter |
| `PolicyMeaning.ConsentStrengthens` | src/engine/portability_engine.cpp:143-221 | consent to moves across vendors leaves a class as it is or makes it a live move, and never makes an unknown one known |
| `PolicyMeaning.BareScore` | src/engine/compatibility_engine.cpp:549-561 | without requirements the score is the free gibibytes up to a thousand, less a hundred for each transformation, and less 250 for synthetic or 500 for missing evidence |
| `PolicyMeaning.ScoresCompare` | src/engine/compatibility_engine.cpp:549-561 | for equal advertisements, scores differ by exactly the provenance and the transformations |
| `Portability.UnknownInputs` | src/engine/portability_engine.cpp:99-142 | lists exactly the gate keys that are unknown on some side |
| `Portability.ClassifyPortability` | src/engine/portability_engine.cpp:99-221 | the branching classifier agrees with its specification |
| `Portability.UnknownIffGateUnknown` | src/engine/portability_engine.cpp:99-142 | the class is unknown if and only if one of the four gate keys is unknown on some side |
| `Portability.ResultIsStrongestJustified` | src/engine/portability_engine.cpp:143-221 | past the gate the class is justified by the evidence and nothing stronger is |
| `Portability.MoreFactsNeverWeaken` | src/engine/portability_engine.cpp:143-221 | more supported facts on either side never lower the strength of a known class |
| `Portability.CrossVendorLiveNeedsConsent` | src/engine/portability_engine.cpp:143-221 | live migration across vendors implies consent and support on both sides |
| `PortabilityMeaning.ClassesMean` | src/engine/portability_engine.cpp:99-221 | the class of a move between two advertisements, stated on their records, vendors, architectures and code objects |
| `PortabilityMeaning.SameArchitectureMeans` | src/engine/portability_engine.cpp:143-221 | two valid advertisements have the same architecture exactly when both name one and it is the same |
| `PortabilityMeaning.StrongClassesAreMutual` | src/engine/portability_engine.cpp:99-221 | a checkpointed, binary, native or live move, and an unknown one, is of the same class in the other direction |
| `PortabilityMeaning.LadderOrders` | src/model/portability.cpp:43-70 | the classes form one ladder by which thresholds and strength are compared, a higher one never needs more transformations, and an unknown class meets no threshold and is met by none |
| `PortabilityMeaning.OnTheLadder` | src/model/portability.cpp:43-70 | every class but the unknown one is a rung of that ladder |
| `PortabilityMeaning.ReasonsAreListed` | src/engine/portability_engine.cpp:84-97 | sorting loses and invents no reason, and lists hard ones first, then by subject, then by code |
| `Migration.PlansAreSound` | src/engine/migration_planner.cpp:90-265 | a plan is refused exactly when its outcome is unsupported or unknown, refused plans carry reasons and no steps, and planned ones meet the workload's need |
| `Migration.PlannedFields` | src/engine/migration_planner.cpp:90-265 | a plan records the class of its endpoints, and a planned one the outcome derived for it |
| `Migration.PermittedMeans` | src/engine/migration_planner.cpp:145-195 | no early refusal is raised if and only if the class is a known way to move that the policy allows, the destination is real where that is demanded, a live move across vendors has consent and both capabilities, and a reconstruction across vendors has consent |
| `Migration.PlannedIff` | src/engine/migration_planner.cpp:145-265 | a plan is made if and only if it is permitted and some outcome is feasible; it then costs a hundred for each transformation of its class and one for each step, and a refused one nothing |
| `Migration.OutcomeIsLeastDisruptive` | src/engine/migration_planner.cpp:44-88 | a planned outcome is feasible and no feasible one is less disruptive; without an early refusal a plan is refused only when nothing is feasible |
| `Migration.StepsAreBacked` | src/engine/migration_planner.cpp:213-257 | the endpoints advertise what every step of a plan names, if and only if a recompilation is planned for the recompile class alone and a repackaging for a destination that offers it |
| `Migration.RepackagingNobodyOffers` | src/engine/migration_planner.cpp:82-84 | a restart on a destination that only offers recompilation is planned as a repackaging |
| `Migration.CrossVendorMoveNeedsConsent` | src/engine/migration_planner.cpp:44-88 | moving native state across vendors implies policy consent and both capabilities on both sides |
| `Migration.StepsKeepOrder` | src/engine/migration_planner.cpp:236-257 | sorting by name keeps the intended order of the steps if and only if the outcome is neither a native move nor a recompilation, and what it does to those two |
| `Migration.ValidationComesLate` | src/engine/migration_planner.cpp:213-257 | in a plan the state is transferred before the transfer is validated, if and only if it is moved natively |
| `Fleet.FillCells` | src/engine/compatibility_engine.cpp:603-644 | the loop fills and counts one cell per target, and stops at the first error |
| `Fleet.EvaluateFleet` | src/engine/compatibility_engine.cpp:603-644 | agrees with the specification, errors included |
| `Fleet.FleetIgnoresOrder` | src/engine/compatibility_engine.cpp:603-644 | the evaluation is the same for every order of the targets, errors included |
| `Fleet.FleetIsComplete` | src/engine/compatibility_engine.cpp:603-644 | a successful evaluation holds each target's own decision, and the three counts add up |
| `Fleet.FleetIsOrdered` | src/engine/compatibility_engine.cpp:603-644 | the cells ascend by identity, and each count is the number of cells with that outcome |
| `Fleet.RepeatsAreRefused` | src/engine/compatibility_engine.cpp:603-644 | the duplicate check on the sorted targets finds a repeat if and only if two of the given targets share an identity |
| `Ranking.ScoreCandidate` | src/engine/ranking.cpp:14-65 | the score is what its explanation adds up to |
| `Ranking.ScoreIsWorth` | src/engine/ranking.cpp:14-65 | the score as one formula over the weights: the native bonus or half of it, less transformations, cost, doubt and distance, plus free gibibytes and the decision score |
| `Ranking.RankCandidates` | src/engine/ranking.cpp:69-108 | the ranking loop agrees with its specification, and refuses exactly the lists that are too long |
| `Ranking.AssignRanks` | src/engine/ranking.cpp:102-104 | numbers the sorted entries from one |
| `Ranking.RankingIgnoresOrder` | src/engine/ranking.cpp:90-106 | for distinct accelerators the ranking is the same for every order of the candidates |
| `Ranking.RankingConserves` | src/engine/ranking.cpp:69-108 | ranked and excluded together hold the entry of every candidate exactly once |
| `Ranking.RankingIsSound` | src/engine/ranking.cpp:90-104 | for distinct accelerators only eligible entries are ranked, with ranks one to n, each entry ahead of all after it by score, then by strength of class, then by identity, and every score is what its explanation adds up to |
| `Ranking.RankingIsOrdered` | src/engine/ranking.cpp:90-106 | of any two ranked entries the earlier has the higher score, at equal scores the stronger class, and at equal classes the smaller identity; excluded entries ascend by identity |
| `Ranking.EveryEligibleIsPlaced` | src/engine/ranking.cpp:69-108 | every eligible candidate has a place in the ranking, with its own entry |
| `Ranking.HigherScoreRanksFirst` | src/engine/ranking.cpp:90-106 | a candidate with a strictly higher score has the smaller rank |
| `Ranking.AdvantagePays` | src/engine/ranking.cpp:14-65 | a candidate that is as good as another and strictly better in a respect that has a positive weight scores strictly higher |
| `Ranking.BetterPlacedRanksFirst` | src/engine/ranking.cpp:14-106 | and hence has the smaller rank |
| `Ranking.DefaultScoreFits64` | src/engine/ranking.cpp:14-65 | with default weights every partial sum of a rank score fits 64 signed bits |
| `Ranking.RankedDecisionFits64` | src/engine/ranking.cpp:58-65 | in particular for the decision score of every valid workload |
| `Ranking.BetterPlacedScoresHigher` | src/engine/ranking.cpp:14-65 | with weights that are not negative, a candidate at least as good in every respect never scores lower |
| `Version.ScanPrerelease` | src/core/version.cpp:68-117 | the two-cursor scan agrees with the comparison of identifier lists |
| `Version.CompareFlips` | src/core/version.cpp:207-218 | comparing the other way round mirrors the verdict, and every version equals itself |
| `Version.CompareTransitive` | src/core/version.cpp:207-218 | the order is transitive |
| `RangeMeaning.NumbersDecide` | src/core/version.cpp:207-218 | releases are ordered as major, minor and patch taken as one number, and a prerelease comes before its release and after every earlier one |
| `Version.PrecedenceMatchesSemVer` | src/core/version.cpp:68-117 | the order agrees with item 11 of Semantic Versioning 2.0.0 if and only if reading oversized numbers as zero leaves the standard order, or reverses it where one list ends and the other goes on with a number; for numbers of 32 bits, if and only if the latter is not the case |
| `Version.ShorterPrereleaseRanksHigher` | src/core/version.cpp:80-99 | 1.0.0-alpha ranks above 1.0.0-alpha.1 |
| `Version.OversizedNumberReadsAsZero` | src/core/version.cpp:52-66 | a numeric identifier beyond 32 bits compares like zero |
| `Version.DecimalRoundTrip` | src/core/version.cpp:52-66 | every 32-bit number is read back from its decimal form |
| `VersionRange.VersionRoundTrip` | src/core/version.cpp:133-192 | every well-formed version is read back from its text, without build metadata |
| `VersionRange.ScanRange` | src/core/version.cpp:222-285 | the tokenizing loop agrees with the specification of the parser |
| `VersionRange.RangeRoundTrip` | src/core/version.cpp:222-340 | printing and rereading a parsed range matches the same versions, and changes the clauses only for the empty range |
| `RangeMeaning.AtLeastGoesUp` | src/core/version.cpp:287-312 | a lower bound admits its version, and with a version everything above it |
| `RangeMeaning.AtMostGoesDown` | src/core/version.cpp:287-312 | an upper bound admits its version, and with a version everything below it |
| `RangeMeaning.OperatorsFit` | src/core/version.cpp:287-312 | the two bounds cover everything and meet exactly in the versions equal to theirs; strict bounds and inequality are the complements |
| `RangeMeaning.OnlyTheseHalfLines` | src/core/version.cpp:287-312 | no other pair of predicates has these properties |
| `RangeMeaning.CompatibleVersions` | src/core/version.cpp:287-312 | a caret admits what is at least its version and released before the next major one, a tilde what is released before the next minor one; a tilde is narrower than a caret, a caret than a lower bound |
| `RangeMeaning.CompatibleParts` | src/core/version.cpp:287-312 | these are the versions at least as high with the same major number, and with the same minor number too |
| `RangeMeaning.TextsMean` | src/core/version.cpp:222-312 | what each written operator admits, from its text, for every well-formed version |
| `RangeMeaning.OpenTextsMean` | src/core/version.cpp:222-240 | the empty text, the star and the word any admit every version |
| `RangeMeaning.RangesMeet` | src/core/version.cpp:287-312 | joining two ranges admits what both admit |
| `VersionRange.RangeTextReread` | src/core/version.cpp:222-340 | every range is read back from its text, and has the same text again |
| `VersionRange.RebuiltReread` | src/model/workload.cpp:258-285 | the text a stored requirement is rebuilt from is parsed again if and only if no clause admits every version |
| `Vocabulary.KeyNameIsIdempotent` | src/model/capability_key.cpp:220-257 | a resolved name resolves to itself, with the same kind |
| `Vocabulary.NoScalars` | src/model/capability_key.cpp:27-96 | no name carries a scalar |
| `Vocabulary.ExtensionShape` | src/model/capability_key.cpp:220-257 | a name with the extension prefix, an owner and a rest is an extension exactly when the rest is not empty and the two together have at least two characters |
| `Token.Canonicalize` | src/model/taxonomy.cpp:26-53 | the trimming and lowering loop agrees with its specification |
| `Token.CanonicalIsIdempotent` | src/model/taxonomy.cpp:26-53 | a canonical token is nonempty, within the limit, and its own canonical form |
| `Token.CanonicalIff` | src/model/taxonomy.cpp:26-53 | a text is its own canonical form exactly when it is nonempty, within the limit, and made of lower-case letters, digits and the four permitted signs |
| `Token.CanonicalIgnoresSpace` | src/model/taxonomy.cpp:26-53 | a leading space never matters |
| `Token.CanonicalIgnoresCase` | src/model/taxonomy.cpp:26-53 | a text whose lowered form is plain canonicalizes to that form |
| `CapabilityTable.CanonicalValueIsIdempotent` | src/model/capability.cpp:191-225 | canonicalizing a value twice is canonicalizing it once |
| `CapabilityTable.SortUnique` | src/model/capability.cpp:20-37 | strictly sorted, with exactly the given elements |
| `CapabilityTable.StoredIsStrict` | src/model/capability.cpp:458-487 | accepted records are strictly ordered by key |
| `CapabilityTable.StoredIgnoresOrder` | src/model/capability.cpp:458-487 | the stored set is the same for every order of the records |
| `CapabilityTable.StoredKeepsRecords` | src/model/capability.cpp:458-487 | the stored set answers for exactly the given records, in canonical form |
| `CapabilityTable.Table.SetRecords` | src/model/capability.cpp:458-487 | replaces the records, or reports the fault and changes nothing |
| `CapabilityTable.Table.SetClosedNamespaces` | src/model/capability.cpp:489-510 | replaces the namespaces by the canonical ones, or reports the fault and changes nothing |
| `CapabilityTable.LowerBound` | src/model/capability.cpp:512-535 | binary search finds the first key that is not below |
| `CapabilityTable.Table.Find` | src/model/capability.cpp:512-535 | binary search agrees with a map lookup whose default is unsupported in closed namespaces and unknown elsewhere |
| `CapabilityCodec.ValueRoundTrip` | src/model/capability.cpp:269-379 | an encoded value decodes to itself without build metadata, and exactly its bytes are consumed, whatever follows, if and only if its prerelease is within the limit |
| `CapabilityCodec.EntryRoundTrip` | src/model/capability.cpp:402-456 | likewise for a record |
| `CapabilityCodec.SetRoundTrip` | src/model/capability.cpp:581-649 | a canonical set decodes to itself without build metadata if and only if every prerelease is within the limit and it carries its own identity; a longer prerelease is reported as out of bounds and any other identity as corruption |
| `CapabilityCodec.ReadSet` | src/model/capability.cpp:594-649 | the reading loops agree with the specification of the decoder, on every input |
| `CapabilityCodec.WriteSet` | src/model/capability.cpp:581-592 | appends exactly the encoding |
| `CapabilityCodec.DecodeSet` | src/model/capability.cpp:594-649 | on every input the decoder stays within the buffer, changes nothing after a failure, and yields a value exactly when nothing failed |
| `Bytes.ValueOfLittle` | src/core/bytes.cpp:8-24 | little-endian bytes give back the number |
| `Bytes.LittleOfValue` | src/core/bytes.cpp:83-117 | and the number gives back the bytes |
| `Bytes.ItemRoundTrip` | src/core/bytes.cpp:62-201 | every field is read back from its encoding, and exactly its bytes are consumed, whatever follows |
| `Bytes.ItemsRoundTrip` | src/core/bytes.cpp:62-201 | likewise for every sequence of fields |
| `Bytes.CountRoundTrip` | src/core/bytes.cpp:203-221 | a count within its limit and the bytes that follow is read back |
| `Bytes.TakeItem` | src/core/bytes.cpp:44-60 | on every input a read stays within the buffer, never goes back, changes nothing after a failure, and yields a field of its shape exactly when nothing failed |
| `Bytes.TakeCount` | src/core/bytes.cpp:203-221 | the same, and a count is never above its limit |
| `Bytes.ByteWriter.Put` | src/core/bytes.cpp:8-42 | appends exactly the encoding |
| `Bytes.ByteReader.Fail` | src/core/bytes.cpp:55-60 | only the first failure is remembered |
| `Bytes.ByteReader.GetItem` | src/core/bytes.cpp:62-201 | the reader object agrees with the specification on every input |
| `Bytes.ByteReader.GetCount` | src/core/bytes.cpp:203-221 | likewise for counts |
| `Bytes.Assemble` | src/core/bytes.cpp:83-117 | the accumulating loop computes the little-endian value |
| `RecordCodec.MemberRoundTrip` | src/model/membership.cpp:30-116 | a member record within the limits decodes to itself, whatever follows |
| `RecordCodec.LongHistoryIsRefused` | src/model/membership.cpp:55-116 | a record whose history outgrew the limit is refused |
| `RecordCodec.PlanRoundTrip` | src/model/migration.cpp:216-347 | a plan within the limits that carries its own identity decodes to itself, whatever follows; any other identity is reported as corruption |
| `RecordCodec.ListRoundTrip` | src/model/migration.cpp:101-120 | a list within its limit decodes to itself |
| `RecordCodec.LongListIsRefused` | src/model/migration.cpp:259-347 | a longer list is refused |
| `RecordCodec.DecodeMember` | src/model/membership.cpp:55-116 | on every input the decoder stays within the buffer, changes nothing after a failure, and yields a value exactly when nothing failed |
| `RecordCodec.DecodePlan` | src/model/migration.cpp:259-347 | likewise for plans |
| `RecordCodec.ReadMember` | src/model/membership.cpp:55-116 | the reading loop agrees with the specification of the decoder, on every input |
| `RecordCodec.ReadPlan` | src/model/migration.cpp:259-347 | likewise for plans |
| `RecordCodec.WriteMember` | src/model/membership.cpp:30-53 | appends exactly the encoding |
| `RecordCodec.WritePlan` | src/model/migration.cpp:216-257 | appends exactly the encoding |
| `Sha256.PaddingIsStandard` | src/core/hash.cpp:138-165 | the padding is that of section 5.1.1 of FIPS 180-4: a one bit, the least number of zeros, and the bit length |
| `Sha256.Hasher.Update` | src/core/hash.cpp:106-126 | appends the bytes to the message, whatever is buffered |
| `Sha256.Hasher.PadToLength` | src/core/hash.cpp:138-152 | the padding loop ends after the least number of zeros |
| `Sha256.Hasher.Finalize` | src/core/hash.cpp:138-165 | the digest folds the compression over the blocks of the padded message |
| `Sha256.HashChunks` | src/core/hash.cpp:106-126 | however a message is cut into updates, the digest is that of the whole message |
| `Fnv.Update` | src/core/hash.cpp:7-13 | the loop computes the byte-by-byte digest |
| `Fnv.KnownDigests` | tests/unit/core_tests.cpp:138-145 | the digests of the empty message and of the letter a are the published ones |
| `Fnv.OneByteChangesDigest` | src/core/hash.cpp:7-13 | changing exactly one byte of any message changes its digest |
| `Crc32.LookupIsEightShifts` | src/net/frame.cpp:65-75 | one table lookup advances the register by eight bit steps |
| `Crc32.BitsMakeByte` | src/net/frame.cpp:76-82 | taking the eight bits of a byte is one exclusive or and eight steps |
| `Crc32.BuildTable` | src/net/frame.cpp:65-75 | the table holds the eight-step entry of every byte |
| `Crc32.Compute` | src/net/frame.cpp:64-82 | the table-driven loop computes the bit-at-a-time checksum of section 8 of RFC 1952 for every byte string |
| `Crc32.BurstChangesRegister` | src/net/frame.cpp:64-82 | any change confined to thirty-two consecutive bits, wherever they begin, changes the register |
| `Crc32.RegisterIsBits` | src/net/frame.cpp:76-82 | the register after a message is the register after its bits |
| `LengthField.RoundTripLength` | src/net/frame.cpp:18-42 | the length field gives back every length |
| `LengthField.RebuildLength` | src/net/frame.cpp:18-42 | and every four bytes are the field of the length they give |
| `Frame.WriteHeader` | src/net/frame.cpp:51-60 | writes exactly the header and nothing beyond it |
| `Frame.EncodeFrame` | src/net/frame.cpp:94-109 | refuses exactly the payloads that are too large and otherwise yields the frame |
| `Frame.DecodeFrameHeader` | src/net/frame.cpp:111-141 | the checks agree with the specification, in their order |
| `Frame.VerifyFrameTrailer` | src/net/frame.cpp:143-155 | likewise for the trailer |
| `Frame.HeaderRoundTrip` | src/net/frame.cpp:111-141 | every header with a supported version and a permitted length decodes to itself, whatever follows |
| `Frame.AcceptedHeadersAreCanonical` | src/net/frame.cpp:111-141 | every accepted header is the encoding of what it decodes to |
| `Frame.FrameRoundTrip` | src/net/frame.cpp:94-155 | every encoded frame is received as it was sent |
| `Frame.ChecksumMeansResidue` | src/net/frame.cpp:122-124 | the checksum field is right if and only if the whole header leaves the residue in the register |
| `Frame.BurstInHeaderIsRejected` | src/net/frame.cpp:111-141 | no change confined to thirty-two consecutive header bits, wherever they begin, is accepted |
| `Frame.SingleByteCorruptionIsRejected` | src/net/frame.cpp:111-155 | changing any single byte of a frame makes the receiver refuse it |

## Left out

- The compression function of SHA-256 is a parameter; collision resistance is not claimed, and identities are structural instead.
- Device-name derived identities and the digest of stored content are parameters. The table of extension names is unbounded here, and bounded to 4096 names in the program.
- Text checks on the node, product, device, adapter and evidence texts of a descriptor and on the names, descriptions and rationales of a workload are one flag on the value, since they would only add easy members. What fails validation is reported as malformed, whatever the precise code.
- History entries and the detail text of reasons: the federation keeps the number of history entries and the length of the longest text, which are what the decoder bounds; the codec keeps the text.
- The byte codecs of policies, workloads, descriptors, evidence and whole snapshots: `StoredForm` and `Federation.Decodes` state on values what they accept and give back.
- Floating point: a scalar capability is a real with an abstract format, and neither rounding nor rendering is modelled; no name carries one.
- Snapshot searches, the audit report as a whole, rendering, escaping and UTF-8 checks.
- Events, sinks and locks: each operation is one atomic step, because it runs under one exclusive lock.
- The control plane, its sessions, sockets, adapters and the file mechanics of the store. A snapshot too large for its file is a failed write.
