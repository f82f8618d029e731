# configd in Dafny

A model of the control loop of `configd`, the configuration daemon of a Carbonio mail server, and of the components
around it. A cycle of the daemon loads the configuration, compares it with the snapshot of the previous cycle, plans
actions, executes them and restarts services. The hard promises are about whole runs of that loop: no change is lost,
failed work is retried until it succeeds, restarts do not feed themselves, clients that ask for a rewrite are served
exactly once. They are stated here as theorems over every run of explicit state machines; the code that changes state
step by step is modelled as classes and loops that are proved to follow those machines.

| file | component |
|---|---|
| `Order.dfy`, `Options.dfy` | the string order of sorted lists; optional values |
| `Plan.dfy` | reasons, restart lists, their merge and their classification |
| `Planner.dfy`, `PlannerFacts.dfy` | the plan of a cycle as a function of two snapshots, and how its parts fit together |
| `PlanMeaning.dfy` | what a plan contains, in terms of the file, the snapshots and the requests alone |
| `Builder.dfy`, `Compiling.dfy`, `Pruning.dfy` | the same plan computed in place, as the program does, and what its loops have done so far |
| `HostPlan.dfy` | planning against the host: pruning and the proxy generator |
| `Cycle.dfy`, `RestartLoop.dfy` | the cycle state machine, safety over every run, the end of the restart loop |
| `Actions.dfy`, `Manager.dfy` | executing a plan; the manager object that refines the state machine |
| `Trigger.dfy`, `RewriteProtocol.dfy` | waiting clients; clients and main loop interleaved |
| `Watcher.dfy`, `Debounce.dfy`, `ChangeStream.dfy` | LDAP change detection by polling and by stream |
| `Template.dfy`, `LocalConfig.dfy`, `Interpolation.dfy` | `${key}` references: recursive expansion and in-place passes |
| `LdapModify.dfy` | value-level LDAP modifications over a retrying transport |
| `Lexing.dfy`, `Parsing.dfy`, `Parser.dfy` | the configuration file: lexer, grammar, parser |
| `ParsingFacts.dfy`, `Lines.dfy` | where blocks end, where sections come from, which variables they need; the grammar line by line |
| `Rejecting.dfy` | which lines are rejected and what a rejected line costs |
| `Loading.dfy` | loading the parsed file, and from its text to the sections a plan lists |
| `Printing.dfy`, `Rendering.dfy` | a printer for configurations and its round trip through lexer and parser |

Conventions. Everything the outside world decides (which action fails, which reply is lost, what the host holds, what a
poll returns, when time passes, in which order a map is iterated) is a parameter, a step of a run or an arbitrary
choice, so the theorems hold for all of it. A missing snapshot is the empty one. The nine action maps of the plan builder
are one table keyed by kind and name; a mapped file is one of three kinds (healed every cycle, synced because its
section changed, local and only checked). Durations and times are integers. Case mapping is that of ASCII letters. The
display form of secret values in reasons is the value itself.

Four places where a promise of the program holds only under a condition are stated exactly:

- A cycle in which nothing changed plans nothing if and only if the tracked services are the enabled ones
  (`PlannerFacts.QuietPlanEmptyIff`): a service enabled or disabled after the first run is toggled in every cycle.
- A waiting client finds a wake-up token in the interval and the idle sleep (`RewriteProtocol.NoLostWakeup`) but need
  not in the back-off sleep (`RewriteProtocol.BackOffWithoutToken`), where the loop remembers the signal instead.
- `ModifyValues` documents that a replaced attribute ends with exactly the listed values. A server refuses a list that
  names a value twice with the very result code the client ignores, so such a replace is dropped and success is
  reported (`LdapModify.DuplicateReplaceIsDropped`). The promise is kept for every entry if and only if the deletes of
  the same call clear each such attribute and its adds list the same values (`LdapModify.PromiseKeptIff`).
- A section depends on the variables its lines look up, but a name has one type per section, the last one used, and the
  if blocks that hold come last. A section is listed because of its variables if and only if a lookup whose type is the
  last of its name changed (`Loading.ChangedLookupListsSection`). A change of a lookup whose name is used under another
  type later goes unseen (`Loading.ShadowedTypeGoesUnseen`); where no name has two types, every change is seen
  (`Loading.ConsistentWins`).

## Model

| member | source | states |
|---|---|---|
| `Order.LeMeans` | internal/plan/compute.go:879-892 | sorted lists follow the order of dictionaries: a prefix comes first, otherwise the first character that differs decides |
| `Plan.AddAllElements` | internal/plan/reason.go:149-164 | appending reasons keeps the old list as a prefix and adds exactly the new elements |
| `Plan.AddAllOnce` | internal/plan/reason.go:149-164 | and lists nothing twice that was not listed twice before |
| `Plan.AddAllAssociative` | internal/plan/reason.go:149-164 | the order-preserving union of reason and section lists is associative |
| `Plan.MergeSorted` | internal/plan/deferred.go:22-39 | a merged restart list is sorted by service with one entry per service |
| `Plan.MergeMeaning` | internal/plan/deferred.go:22-62 | the merge says of each service what the two lists say one after the other, classified |
| `Plan.MergeKeepsLatest` | internal/plan/deferred.go:22-62 | entry by entry: a merged service has the action of its last entry, classified for the host, and its sections and reasons begin with those of its first entry and are exactly those of all its entries |
| `Plan.MergeServices` | internal/plan/deferred.go:22-39 | the merge names exactly the services of the two lists |
| `Plan.MergeAssociative` | internal/plan/deferred.go:22-62 | merging is associative |
| `Plan.MergeCommutesWithClassify` | internal/plan/heavy.go:39-45 | classifying the inputs first or the result afterwards is the same |
| `Plan.FoldRestarts` | internal/plan/deferred.go:22-62 | the in-place fold over restart entries means the same as the entries in order |
| `Plan.ClassifyRestarts` | internal/plan/deferred.go:22-39 | the classification loop classifies every entry and changes nothing else |
| `Plan.MergeRestartLists` | internal/plan/deferred.go:22-62 | the fold, sort and classify loops compute the merge |
| `PlannerFacts.AsksMembership` | internal/plan/compute.go:285-554 | the compiled lists of a section hold exactly the names each list asks for, with their value and reasons |
| `PlannerFacts.GatherEntry` | internal/plan/compute.go:193-228 | a gathered action lists exactly the sections that ask for it, in section order, with the last value and the union of reasons |
| `PlannerFacts.AssembledKeys` | internal/plan/compute.go:72-85 | the actions assembled for a plan are exactly those asked for, carried, or toggled |
| `PlannerFacts.PlanSections` | internal/plan/compute.go:193-228 | the listed sections are exactly the processed ones |
| `PlannerFacts.SectionChangesExact` | internal/plan/compute.go:255-283 | a section has changes exactly when it is compared and the observed value of a required variable differs |
| `PlannerFacts.ProcessedExact` | internal/plan/compute.go:193-253 | a section is processed exactly when it is considered and was asked for, runs first, is assumed changed, or is compared and changed |
| `PlannerFacts.PlanRestarts` | internal/plan/compute.go:364-413 | the restarts of a plan are exactly those of processed sections nobody asked for, toggled services and carried ones |
| `PlannerFacts.PlanDeferred` | internal/plan/compute.go:364-413 | the deferred restarts are exactly those of sections that were asked for and also changed |
| `PlannerFacts.OwedIsPlanned` | internal/plan/compute.go:381-399 | every service of a changed section is restarted by the plan or deferred |
| `PlannerFacts.CarryIsPlanned` | internal/plan/compute.go:628-666 | every carried action is planned again |
| `PlannerFacts.PlanActions` | internal/plan/compute.go:335-362 | a plan's actions are exactly those asked for and those carried |
| `PlannerFacts.PlanEntry` | internal/plan/compute.go:335-474 | a planned action names exactly the sections that ask for it, in section order, with the value the last of them asks for |
| `PlannerFacts.ConditionNegates` | internal/plan/compute.go:492-516 | both ways to negate a condition flip it, also when the lookup fails; an unnegated one holds exactly for a found true value |
| `PlannerFacts.ParamsLastWins` | internal/plan/compute.go:476-490 | a postfix parameter has the value of the last if block that holds and sets it, or else that of the section |
| `PlannerFacts.QuietPlanEmptyIff` | internal/plan/types.go:82-85 | a cycle without change, request or carry is empty if and only if the tracked services are the enabled ones |
| `PlannerFacts.PlanWellKeyed` | internal/plan/compute.go:796-859 | every entry of a plan is stored under its own key |
| `PlanMeaning.FalseValues` | internal/config/consts.go:47-62 | which values are false, letter by letter: the empty one and those that start like no, false or zero in any case |
| `PlanMeaning.HoldsMeans` | internal/plan/compute.go:495-516 | a block holds exactly when its condition reads true in the snapshot, the server's value hiding that of misc and that the global one, under an even number of negations |
| `PlanMeaning.SectionsListed` | internal/plan/compute.go:156-228 | a plan lists exactly the sections of the file that are in scope, whose service is there, and that are forced, requested, in their first run, assumed changed or moved |
| `PlanMeaning.SectionSays` | internal/plan/compute.go:231-283 | a listed section gives exactly these reasons, each changed variable with its two values |
| `PlanMeaning.WantsIs` | internal/plan/compute.go:288-539 | kind by kind, what the compiled lists of a section hold is what its lines and its blocks that hold ask for |
| `PlanMeaning.ActionPlanned` | internal/plan/compute.go:285-474 | the actions of a plan are exactly those a section wants or that were carried over; each names the sections that want it in order, has the value of the last of them and exactly their reasons, and a carried one is marked as a retry |
| `PlanMeaning.RestartServices` | internal/plan/compute.go:364-413 | which services a plan restarts and which it defers |
| `PlanMeaning.RestartPlanned` | internal/plan/compute.go:520-623 | the action, sections and reasons of every restart: as its sections want it, else as the service was turned on or off, else as first carried over |
| `PlanMeaning.DeferralPlanned` | internal/plan/compute.go:381-399 | the action and sections of every deferred restart |
| `PlanMeaning.PlanIsRight` | internal/plan/compute.go:520-539 | a service that sections restart is restarted if it is enabled, or is opendkim with mta enabled, pending if also heavy on a systemd host, and else stopped, disabled archiving left alone; every other restart starts or stops a toggled service |
| `PlanMeaning.TrackedMeans` | internal/plan/compute.go:584-623 | the first plan records unknown services by the truth of their value, later plans change nothing |
| `PlanMeaning.PlanHead` | internal/plan/compute.go:796-811 | a plan says whether it is the first and names the enabled services in order |
| `PlanMeaning.EmptyIff` | internal/plan/types.go:82-85 | a plan is empty exactly when no service was turned on or off and no section wants more than healing and later restarts |
| `PlanMeaning.RefusedIff` | internal/plan/compute.go:143-155 | planning is refused exactly when more than one service is tracked and none of them is enabled |
| `Builder.Builder.constructor` | internal/plan/compute.go:112-130 | a builder starts with empty tables and the tracked services of its input |
| `Builder.Builder.GuardAllDisabled` | internal/plan/compute.go:143-155 | the guard stops exactly when more than one service is tracked and none is enabled |
| `Builder.Builder.DiffSection` | internal/plan/compute.go:259-283 | the loop over required variables yields one reason per variable that differs, in key order |
| `Compiling.PutOneMore` | internal/plan/compute.go:416-430 | recording a request again, with the same reasons, only renews its value: the order and repetition of requests inside a section do not matter |
| `Builder.Builder.Enter` | internal/plan/compute.go:416-474 | one more request of the section is entered in the table and the rest of the table is unchanged |
| `Builder.Builder.HealMapfiles` | internal/plan/compute.go:288-311 | a compared section heals exactly its mapped files, with their own reason; another one heals none |
| `Builder.Builder.MapfileOps` | internal/plan/compute.go:313-333 | the loop syncs exactly the mapped files and checks exactly the local ones |
| `Builder.Builder.CompileRewrites` | internal/plan/compute.go:416-430 | the loop enters exactly the rewrites, each with its target and mode |
| `Builder.Builder.SetLines` | internal/plan/compute.go:452-474 | postfix lines are entered on one line each and override those entered before |
| `Builder.Builder.ConditionHolds` | internal/plan/compute.go:495-516 | the branches decide exactly whether a block holds |
| `Builder.Builder.CompileParams` | internal/plan/compute.go:335-362 | the section's own lines and then those of the blocks that hold give exactly the parameters in force |
| `Builder.Builder.CompileProxygen` | internal/plan/compute.go:335-362 | the proxy generator is asked for exactly by the sections that say so |
| `Builder.Builder.CompileLdap` | internal/plan/compute.go:433-449 | the loop enters exactly the LDAP lines with a value |
| `Builder.Builder.CompileSectionRestarts` | internal/plan/compute.go:520-539 | the loop restarts enabled services and stops disabled ones, with the two exceptions, under lower-case names |
| `Compiling.SectionVarChanges` | internal/plan/compute.go:403-412 | the variable changes among the reasons of a section are exactly its changes |
| `Builder.Builder.CollectVarChanges` | internal/plan/compute.go:403-412 | the loop keeps exactly the reasons that are variable changes |
| `Builder.Builder.CompileRestarts` | internal/plan/compute.go:381-399 | restarts now, later or not at all, as the section was asked for and changed |
| `Builder.Builder.CompileSection` | internal/plan/compute.go:335-362 | the compiled lists are exactly what the section asks for |
| `Builder.Builder.ReasonsFor` | internal/plan/compute.go:231-253 | the reasons of a section in their order: forced, requested, first run or changes, evaluated |
| `Builder.Builder.ProcessSection` | internal/plan/compute.go:193-228 | one turn of the section loop enters exactly what the section asks for and lists it exactly when it has a reason |
| `Builder.Builder.ProcessSections` | internal/plan/compute.go:193-228 | the section loop gathers the requests of all sections and lists the processed ones |
| `Builder.Builder.Stops` | internal/plan/compute.go:584-594 | the stops are exactly those of tracked services that are not enabled |
| `Builder.Builder.ServiceToggles` | internal/plan/compute.go:584-623 | the loops compute the stops and starts, and on the first run the tracked status of new services |
| `Builder.Builder.TrackServices` | internal/plan/compute.go:560-579 | a toggle adds its reason to a section's restart of the service, or becomes the entry |
| `Builder.Builder.MergeCarry` | internal/plan/compute.go:628-666 | carried actions and restarts are merged in place; a fresh action of the same key wins and is marked as a retry |
| `Builder.Builder.Keep` | internal/plan/compute.go:673-683 | an action is kept exactly when it differs from the host, with that difference as its reason, and then marks its sections |
| `Builder.Builder.MoveHeals` | internal/plan/compute.go:720-742 | the heal loop marks the sections of drifted heals and turns a drifted heal into a sync unless one is asked for |
| `Builder.Builder.PruneLists` | internal/plan/compute.go:720-793 | each list keeps exactly its drifted entries; only lists other than LDAP mark sections |
| `Builder.Builder.PruneActions` | internal/plan/compute.go:687-700 | the lists one after the other keep the drifted actions and mark their sections |
| `Builder.Builder.PruneRestarts` | internal/plan/compute.go:701-716 | a restart is kept exactly when one of its sections is marked, with the drift as its reason |
| `Pruning.LoopsMark` | internal/plan/compute.go:687-793 | the marks left by all loops are exactly the sections of drifted candidates other than LDAP writes |
| `Pruning.LoopsPrune` | internal/plan/compute.go:687-793 | together the loops leave exactly the pruned table and the touched sections, although they mark sections while they go |
| `Builder.Builder.PruneToHost` | internal/plan/compute.go:687-793 | the pruning loops leave exactly the pruned table and the touched sections |
| `Builder.ComputePlan` | internal/plan/compute.go:72-85 | the builder's steps compute the plan function; it is refused exactly when more than one service is tracked and none enabled, and its restarts have the actions their services call for |
| `HostPlan.SectionKeptIff` | internal/plan/compute.go:687-716 | a section is kept exactly when it is processed and a drifted candidate touches it |
| `HostPlan.RestartKeptIff` | internal/plan/compute.go:701-716 | a restart is kept exactly when a drifted candidate touches one of its sections; nothing is deferred |
| `HostPlan.TouchedByKept` | internal/plan/compute.go:720-742 | touched sections in terms of the kept actions, exactly, for every table |
| `HostPlan.HostHasNoSync` | internal/configmgr/manager_plan_host.go:64-99 | in a host plan nothing counts as changed, so no mapped file is synced because of a change |
| `HostPlan.HostTouchedIff` | internal/plan/compute.go:687-742 | in a host plan a section is touched if and only if a kept action other than an LDAP write names it |
| `HostPlan.HostKeepsIff` | internal/plan/compute.go:687-716 | in a host plan sections and restarts are kept if and only if a kept action other than an LDAP write names one of their sections |
| `HostPlan.ProxygenDrift` | internal/configmgr/manager_plan_host.go:131-146 | the drift text is non-empty exactly when the pruned plan lists a section of the proxy generator |
| `HostPlan.AssembledIgnoresHost` | internal/configmgr/manager_plan_host.go:64-99 | the three passes work on the same candidates |
| `HostPlan.NarrowMeans` | internal/configmgr/manager_plan_host.go:107-129 | the sections requested, or else those configured; a requested one that is not configured is an error |
| `HostPlan.HostActionMeans` | internal/plan/compute.go:687-793 | a host plan keeps an action exactly when a section wants it, or wants its file healed, and the observation differs, which becomes its one reason |
| `HostPlan.HostRestartMeans` | internal/plan/compute.go:701-716 | every restart of a host plan has the action its service calls for and names exactly the sections that want it |
| `HostPlan.PlanHost` | internal/configmgr/manager_plan_host.go:40-146 | the scope errors, exactly; otherwise a plan with exactly the wanted actions the host differs from, the sections and restarts for which it keeps an action other than an LDAP write, and the proxy generator exactly when another drifted action touches one of its sections; it is never refused |
| `Cycle.StepInv` | internal/configmgr/manager_plan.go:121-399 | every step keeps the invariant: a plan contains what was carried into it, an executed plan's restarts are carried |
| `Cycle.AfterPlanServices` | internal/configmgr/manager_plan.go:155-197 | planning only moves owed restarts between plan and deferred list, and adds those the plan asks for |
| `Cycle.FirstRunUntilApplied` | cmd/configd/mainloop.go:755-763 | over every run it is the first run until restarts were handed to the policy for the first time |
| `Cycle.NoOwedRestartLost` | internal/plan/compute.go:381-399 | over every run with plan failures, execute failures and hand-backs, once restarts were applied for the first time: a service for which a changed section has a RESTART line stays in the plan, the carry or the deferred list until a plan containing it reaches the restart policy |
| `Cycle.HandedBackStaysOwed` | internal/configmgr/manager_plan.go:388-399 | over every run a restart the policy hands back is owed again until a plan with it is applied |
| `Cycle.RequestedIs` | internal/configmgr/manager_plan.go:121-170 | over every run a request waits for the next successful plan, which consumes it |
| `Cycle.PlanListsIff` | internal/plan/compute.go:193-253 | over every run a plan lists a section exactly when the file, the configured scope and its service admit it and it is forced, requested since the last plan, in the first run, or moved since the last plan |
| `Cycle.StepKeepsPending` | internal/configmgr/manager_plan.go:301-386 | a pending action either stays pending or completes in a step, never both |
| `Cycle.RetryUntilSuccess` | internal/configmgr/manager_plan.go:296-367 | over every run, a planned or carried action stays pending until an execution completes it |
| `Cycle.CarriedIsPlannedAgain` | internal/plan/compute.go:628-666 | over every run, each successful plan contains every action carried into it |
| `Cycle.BaselineKept` | internal/configmgr/manager_plan.go:121-160 | while no plan lists a section, the baseline keeps the value of each variable it watches |
| `Cycle.ChangeDetectionTelescopes` | internal/plan/compute.go:193-283 | over every run, a variable that differs between two successful plans makes some plan in between list each section that watches it throughout, however many plans failed |
| `Cycle.NoHeavyRestart` | internal/plan/compute.go:847-851 | over every run on a systemd host neither the deferred restarts nor a plan on its way to the restart policy plainly restarts a heavy service |
| `Cycle.PlanHolds` | internal/configmgr/manager_plan.go:172-197 | one plan keeps all held restarts and its own deferrals as one merge, or merges them into its restarts |
| `Cycle.DeferredIsMerge` | internal/configmgr/manager_plan.go:172-181 | over every run the deferred list is the merge, in time order, of everything deferred since the last release |
| `Cycle.ReleaseIsOneMerge` | internal/configmgr/manager_plan.go:172-197 | over every run a releasing plan hands on its own restarts merged with all that REWRITE cycles deferred, in time order; any other plan its own restarts only |
| `RestartLoop.CycleCatches` | internal/configmgr/manager_plan.go:155-197 | a complete cycle consumes the change and leaves at most held-back restarts |
| `RestartLoop.RewriteCycleIsHarmless` | internal/plan/compute.go:364-399 | once caught up, a REWRITE cycle restarts nothing and holds back nothing new |
| `RestartLoop.QuietCycle` | internal/configmgr/manager_plan.go:155-197 | once caught up, a cycle without request releases what is held; with nothing held it is empty |
| `RestartLoop.RestartLoopEnds` | internal/plan/compute.go:364-413 | after the change cycle only the first cycle that is not a REWRITE can restart anything, whatever sections restarted services ask for, and later cycles without request are empty |
| `RestartLoop.AtMostOneLaterRestart` | internal/plan/compute.go:364-413 | at most two cycles carry restarts |
| `RestartLoop.RunsReachSteady` | internal/configmgr/manager_plan.go:121-197 | the theorem applies at every such point of every run of the state machine |
| `Actions.RemainingExact` | internal/configmgr/manager_actions_rewrite.go:152-166 | an entry remains exactly when it was not carried out |
| `Actions.PostconfOneByOne` | internal/configmgr/manager_actions_mta.go:120-144 | after a refused batch each key is set on its own; exactly the failing ones remain |
| `Actions.PostconfOps` | internal/configmgr/manager_actions_mta.go:111-144 | the batch, or the single calls after it, carry out exactly the keys stated |
| `Actions.ResolvePostconf` | internal/configmgr/manager_actions_mta.go:51-90 | resolution stops at a shutdown and otherwise yields exactly the resolvable entries |
| `Actions.DoPostconf` | internal/configmgr/manager_actions_mta.go:51-106 | what is pending is exactly what was not done, under unresolved values, batch failure, single failures and shutdown |
| `Actions.DoPostconfd` | internal/configmgr/manager_actions_mta.go:148-179 | all or nothing: refused or cut short, everything is pending |
| `Actions.DoLdap` | internal/configmgr/manager_actions_mta.go:183-237 | exactly the resolvable, successful writes before a shutdown are done, the rest is pending |
| `Actions.DoRewrites` | internal/configmgr/manager_actions_rewrite.go:96-166 | in any finishing order of the workers, pending is exactly the templates not rendered |
| `Actions.RunWorkers` | internal/configmgr/manager_actions_rewrite.go:96-150 | at most four workers at a time render exactly the templates started before a shutdown that do not fail |
| `Manager.SliceExact` | internal/plan/compute.go:796-859 | a plan's list of one kind holds exactly its entries of that kind, each key once |
| `Manager.RunStep` | internal/configmgr/manager_actions_rewrite.go:28-40 | a step completes exactly the stated keys, leaves the others, and reports an error exactly when stated |
| `Manager.ConfigManager.constructor` | internal/configmgr/manager_plan.go:121-160 | a new manager is in the initial state of the machine |
| `Manager.ConfigManager.AddRequestedConfigs` | cmd/configd/mainloop.go:88-91 | requesting sections is the request step of the machine |
| `Manager.ConfigManager.HoldDeferred` | internal/configmgr/manager_plan.go:172-197 | deferred restarts are held, or handed over to the plan by a cycle that is not a REWRITE |
| `Manager.ConfigManager.Plan` | internal/configmgr/manager_plan.go:121-160 | planning is the plan step of the machine; a refused plan changes nothing |
| `Manager.ConfigManager.Execute` | internal/configmgr/manager_plan.go:301-386 | executing is the execute step of the machine: each action is done or carried, never both; which are done and whether an error is reported is stated exactly |
| `Manager.ConfigManager.ApplyRestarts` | internal/configmgr/manager_plan.go:392-399 | applying restarts is the last step of the machine: what the policy hands back is carried |
| `Trigger.MovesValid` | cmd/configd/mainloop.go:121-191 | claiming, completing and requeueing keep every client in one place at most |
| `Trigger.ActionTrigger.constructor` | cmd/configd/mainloop.go:45-63 | no client waits at first |
| `Trigger.ActionTrigger.Register` | cmd/configd/mainloop.go:93-97 | a client is added behind those waiting |
| `Trigger.ActionTrigger.Forget` | cmd/configd/mainloop.go:111-117 | a cancelled client is removed from both lists, and only it |
| `Trigger.ActionTrigger.ClaimWaiters` | cmd/configd/mainloop.go:121-126 | the cycle claims everyone waiting |
| `Trigger.ActionTrigger.CompleteWaiters` | cmd/configd/mainloop.go:130-139 | every claimed client is released, none a second time |
| `Trigger.ActionTrigger.RequeueWaiters` | cmd/configd/mainloop.go:185-191 | claimed clients go back to the front of the queue |
| `Trigger.ActionTrigger.BeginRestarts` | cmd/configd/mainloop.go:146-155 | the sections of the restarting cycle are published |
| `Trigger.ActionTrigger.EndRestarts` | cmd/configd/mainloop.go:158-162 | and withdrawn |
| `Trigger.ActionTrigger.RewrittenByRestartingCycle` | cmd/configd/mainloop.go:166-181 | true exactly when a cycle is restarting and its sections include every section named, at least one |
| `RewriteProtocol.RunInv` | cmd/configd/mainloop.go:65-191 | the invariants of lists, queue, claims, releases, restarts and wake-ups hold in every interleaving |
| `RewriteProtocol.ReleasedOnceAndServed` | cmd/configd/mainloop.go:429-469 | in every interleaving a client is released at most once, and for each section it named the run has, in order: the client queued it, a plan took it and succeeded, the execution of that very plan ended |
| `RewriteProtocol.UnsettledMeans` | cmd/configd/mainloop.go:609-630 | what is taken but not executed was queued by its client and then taken by the plan now being executed |
| `RewriteProtocol.InOnePlace` | cmd/configd/mainloop.go:89-152 | in every interleaving a client that registered and did not give up waits, is claimed or is released, and just one of these |
| `RewriteProtocol.ClaimedAreSettled` | cmd/configd/mainloop.go:128-152 | completing releases every claimed client, requeueing puts every claimed client back |
| `RewriteProtocol.CompleteCycleReleases` | cmd/configd/mainloop.go:117-140 | in every interleaving a cycle that claims and completes releases, for good, every client that waited when it claimed and did not give up |
| `RewriteProtocol.GaveUp` | cmd/configd/mainloop.go:108-116 | in every interleaving a client that gave up is neither waited for nor claimed |
| `RewriteProtocol.QueueMeans` | cmd/configd/mainloop.go:89-93 | in every interleaving the queue holds exactly the sections queued since the take of the last plan that succeeded, and a plan being made holds the ones it took |
| `RewriteProtocol.EarlyAnswerIff` | cmd/configd/mainloop.go:65-87 | in every interleaving a client is answered early if and only if all it names are in a plan whose own execution ended without error, no plan was made since, and its restarts are being applied |
| `RewriteProtocol.TokenMeans` | cmd/configd/mainloop.go:100-106 | a token is pending exactly when something was sent and nothing has consumed it since |
| `RewriteProtocol.IdleIff` | cmd/configd/mainloop.go:575-590 | in every interleaving a turn is skipped as idle exactly when that is enabled, the first cycle has ended, no token was consumed since the last cycle ended, and no client counted itself since a cycle marked the count |
| `RewriteProtocol.NoLostWakeup` | cmd/configd/mainloop.go:681-706 | in the interval and the idle sleep every waiting client past its send finds a token |
| `RewriteProtocol.BackOffRemembers` | cmd/configd/mainloop.go:575-655 | otherwise the loop has remembered the signal and does not skip the next turn as idle |
| `RewriteProtocol.BackOffWithoutToken` | cmd/configd/mainloop.go:649-655 | a run in which a waiting client has no token during the back-off sleep |
| `Watcher.Configured` | internal/ldapwatch/watcher.go:195-228 | defaults make the interval and the back-off positive and a debounced burst bounded |
| `Watcher.DiffEmptyIff` | internal/ldapwatch/watcher.go:399-419 | no component changed if and only if the fingerprints are equal |
| `Watcher.DiffMeans` | internal/ldapwatch/watcher.go:399-419 | a component changed if and only if it was added, removed or has another digest |
| `Watcher.ChangedComponents` | internal/ldapwatch/watcher.go:399-419 | the loops return the sorted names of changed, added and removed components |
| `Watcher.RunState.constructor` | internal/ldapwatch/watcher.go:244-248 | a run starts without baseline, pending changes or failures |
| `Watcher.RunState.Observe` | internal/ldapwatch/watcher.go:323-343 | differences join the pending burst and the fingerprint becomes the baseline |
| `Watcher.RunState.Fire` | internal/ldapwatch/watcher.go:351-364 | the burst is reported sorted and cleared |
| `Watcher.RunState.PollFailed` | internal/ldapwatch/watcher.go:367-386 | a failed poll doubles the back-off up to its bound and touches nothing else; a cancelled one changes nothing |
| `Watcher.RunState.PollRecovered` | internal/ldapwatch/watcher.go:389-397 | a good poll resets the back-off |
| `Watcher.RunState.Step` | internal/ldapwatch/watcher.go:290-319 | a poll is the poll step of the machine, with its wait and trigger |
| `Watcher.RunState.ReadFingerprint` | internal/ldapwatch/stream.go:264-301 | a stream read is the read step of the machine |
| `Watcher.RunInvariant` | internal/ldapwatch/watcher.go:290-364 | over every run mixing polls, stream reads and failures, the baseline is the last good fingerprint and the pending set every difference since the last trigger |
| `Watcher.TriggersAreExact` | internal/ldapwatch/watcher.go:345-364 | each trigger reports exactly the sorted, non-empty union of the differences since the previous one; the first good fingerprint never triggers |
| `Watcher.ReadTriggersIff` | internal/ldapwatch/stream.go:264-301 | over every run a stream read after a baseline triggers if and only if something differed since the last trigger |
| `Watcher.BackoffDoubles` | internal/ldapwatch/watcher.go:367-397 | over every run the back-off is its minimum doubled with every failed poll since the last good one, up to its bound, and a failed poll waits that long |
| `Watcher.GoodPollWaits` | internal/ldapwatch/watcher.go:290-319 | a good poll waits the interval, or a shorter debounce while differences are kept waiting |
| `Watcher.DiffsInMeans` | internal/ldapwatch/stream.go:264-301 | that union is the components that differ between two successive good reads of the window |
| `Watcher.DifferencesAreReported` | internal/ldapwatch/watcher.go:321-364 | no difference is lost: it is reported by a later trigger or still pending |
| `Debounce.BurstTimes` | internal/ldapwatch/watcher.go:323-348 | the recorded times are those of the first and latest change of the burst |
| `Debounce.TriggerIsTimely` | internal/ldapwatch/watcher.go:281-348 | polling only, a trigger comes no earlier than the debounce after the latest change unless the maximal wait is reached, and before the maximal wait plus one waiting poll after the first |
| `Debounce.WaitingIsBounded` | internal/ldapwatch/watcher.go:308-319 | a waiting burst is younger than the maximal wait and the next poll is one short wait away |
| `Debounce.WaitingTimes` | internal/ldapwatch/watcher.go:323-348 | over every run mixing polls, failures and stream reads the recorded times are those of the first and latest difference kept waiting |
| `Debounce.PollTriggersIff` | internal/ldapwatch/watcher.go:281-364 | over every run a good poll triggers if and only if something differed since the last trigger and there is no debounce, or nothing differed for that long, or the first difference is as old as the maximal wait |
| `ChangeStream.NoNotificationLost` | internal/ldapwatch/stream.go:99-246 | in every interleaving a delivered notification was followed by a read, has one coming, or the stream ended; a blocked loop has served all |
| `ChangeStream.ArmedDeadline` | internal/ldapwatch/stream.go:190-258 | an armed deadline is the quiet window after the latest wake-up cut at the maximal wait after the first, never in the past; every notification is counted by exactly one read |
| `ChangeStream.NotificationsServedInTime` | internal/ldapwatch/stream.go:213-246 | a loop that is not kept waiting begins a read at most the maximal wait after each notification |
| `Template.RenderParse` | internal/localconfig/resolve.go:14-15 | the matches of the reference pattern and the text between them make up the value |
| `Template.ParseRender` | internal/localconfig/resolve.go:14-15 | reading a well-formed value back gives its tokens |
| `Template.OpensAt` | internal/localconfig/resolve.go:165-176 | the first `${` and the next `}` delimit the first reference |
| `Template.ReplaceAllIsReplaceTok` | internal/localconfig/resolve.go:183-183 | replacing the text of a reference replaces exactly the references of that name |
| `LocalConfig.ExpandFailsIff` | internal/localconfig/resolve.go:153-163 | expansion fails if and only if a reference cycle or a key without a value is reachable |
| `LocalConfig.ExpandedIsPlain` | internal/localconfig/resolve.go:165-187 | a successful expansion has no reference left |
| `LocalConfig.SeenIrrelevant` | internal/localconfig/resolve.go:153-158 | a successful expansion does not depend on the keys met on the way |
| `LocalConfig.ExpandDeep` | internal/localconfig/resolve.go:153-187 | the recursive replacement loop terminates on every well-formed map and equals recursive substitution, errors included |
| `LocalConfig.Raw` | internal/localconfig/resolve.go:96-104 | a raw lookup is a lookup in the defaults overridden by the configured values |
| `LocalConfig.ConfiguredWins` | internal/localconfig/resolve.go:96-104 | a configured value hides the default of its key, and no other |
| `LocalConfig.Validate` | internal/localconfig/resolve.go:143-151 | validation passes if and only if every key expands, and otherwise reports the first failing key in key order |
| `Interpolation.Substitute` | internal/localconfig/resolve.go:49-70 | one value's references are replaced by current values, and the substitutions counted |
| `Interpolation.Localconfig.constructor` | internal/localconfig/resolve.go:24-25 | the map starts as given |
| `Interpolation.Localconfig.MergeDefaults` | internal/localconfig/resolve.go:74-80 | defaults are applied to missing keys only |
| `Interpolation.Localconfig.InterpolatePass` | internal/localconfig/resolve.go:41-55 | a pass visits every key once, in an arbitrary order, in place |
| `Interpolation.Localconfig.Interpolate` | internal/localconfig/resolve.go:24-37 | at most ten passes, none after one without substitution, with their total |
| `Interpolation.ReachedExpands` | internal/localconfig/resolve.go:60-70 | what an expanding key refers to expands too and is another key |
| `Interpolation.PassDoubles` | internal/localconfig/resolve.go:41-55 | a pass in any order keeps the meaning of every expanding key and doubles the length of the chains that are left |
| `Interpolation.PassesResolve` | internal/localconfig/resolve.go:24-55 | p passes in any orders resolve every key whose chains are shorter than 2^p |
| `Interpolation.ZeroPassIsPlain` | internal/localconfig/resolve.go:27-34 | a pass without substitution leaves no reference in an expanding key |
| `Interpolation.InterpolateIsExpand` | internal/localconfig/resolve.go:24-187 | in every iteration order `Interpolate` gives a key exactly what `Legacy.Expand` gives it, when no chain from it has more than 1023 references |
| `LdapModify.RequestMeans` | internal/ldap/modify.go:30-99 | a request leaves, attribute by attribute, the promised content, apart from replaces that list a value twice |
| `LdapModify.RequestIdempotent` | internal/ldap/modify.go:30-62 | repeating a request changes nothing more |
| `LdapModify.SplitEffect` | internal/ldap/modify.go:64-82 | one value at a time comes to the same as whole modifications |
| `LdapModify.ModifyOps` | internal/ldap/modify.go:86-99 | the loops order deletes, adds and replaces, each by attribute |
| `LdapModify.SingleValueOps` | internal/ldap/modify.go:66-82 | the loops split every add and delete by value |
| `LdapModify.Client.constructor` | internal/ldap/client.go:145-227 | a client of one entry, before its first attempt |
| `LdapModify.Client.Attempt` | internal/ldap/modify.go:102-119 | one attempt: lost with or without effect, refused without effect, or answered by the server |
| `LdapModify.Client.Modify` | internal/ldap/client.go:462-503 | through all retries the entry is as before or has the request's effect; success means the effect, a refusal as already done means the server refuses it now; a request answered after at most the allowed number of attempts worth repeating returns no other error, and a refusal that is final is returned after one attempt |
| `LdapModify.Client.ModifyValues` | internal/ldap/modify.go:44-62 | whenever no error is returned the entry has exactly the effect of the request, whichever path ran and whichever replies were lost; an error is returned only if some request could not be answered within its retries |
| `LdapModify.ConvergesOnPromise` | internal/ldap/modify.go:30-44 | that effect is the promised content for duplicate-free replaces |
| `LdapModify.DuplicateReplaceIsDropped` | internal/ldap/modify.go:44-62 | with every request answered, a replace that lists a value twice reports success and leaves the entry without the listed value |
| `LdapModify.PromiseKeptIff` | internal/ldap/modify.go:30-62 | the promise is kept for every entry if and only if each replace that lists a value twice is covered by the deletes and adds of the same call |
| `Lexing.TokenConsumes` | internal/parser/lexer.go:163-237 | every token but the end takes at least one character |
| `Lexing.TokensBounded` | internal/parser/lexer.go:163-237 | no text gives more tokens than it has characters, and its end |
| `Lexing.Lexer.constructor` | internal/parser/lexer.go:33-44 | the whole text is left at first |
| `Lexing.Lexer.ReadChar` | internal/parser/lexer.go:47-75 | one character is consumed, none at the end |
| `Lexing.Lexer.SkipWhitespace` | internal/parser/lexer.go:78-82 | blanks are skipped, newlines are not |
| `Lexing.Lexer.SkipComment` | internal/parser/lexer.go:85-89 | a comment is skipped up to its newline |
| `Lexing.Lexer.ReadIdentifier` | internal/parser/lexer.go:92-100 | the longest run of identifier characters is read |
| `Lexing.Lexer.ReadQuoted` | internal/parser/lexer.go:103-120 | a quoted text ends at its quote, its line or the end |
| `Lexing.Lexer.ReadBare` | internal/parser/lexer.go:122-129 | a bare word ends at white space |
| `Lexing.Lexer.NextToken` | internal/parser/lexer.go:163-237 | the token read and the text left are those of the token grammar |
| `Parsing.PostconfLine` | internal/parser/parser.go:319-348 | a POSTCONF line consumes at least its keyword |
| `Parsing.BlockBody` | internal/parser/conditionals.go:48-66 | the body of an if block never reads backwards |
| `Parsing.Directive` | internal/parser/parser.go:175-215 | every accepted directive consumes a token |
| `Parsing.Body` | internal/parser/parser.go:155-166 | a section body ends at the next SECTION or the end |
| `Parsing.OneSection` | internal/parser/parser.go:101-172 | a turn of the section loop consumes a token, or fails where the recovery will |
| `ParsingFacts.BlockEndsAtFirstFi` | internal/parser/conditionals.go:42-66 | an if block ends with the first line that starts with fi, whatever ifs were opened before it |
| `ParsingFacts.LineNamesLookup` | internal/parser/parser.go:313-394 | which lookup a POSTCONF line names, a FILE path of two tokens included |
| `ParsingFacts.BodyRegisters` | internal/parser/parser.go:257-454 | the required variables of a section are exactly what its directives register, in order |
| `ParsingFacts.SectionsComeFromBodies` | internal/parser/parser.go:85-97 | every section of a parsed file is what the body right after a header of its name builds from nothing, also after errors in others |
| `Lines.DirectiveInLine` | internal/parser/parser.go:175-215 | a directive other than an if reads its own line only, to its end, whatever follows |
| `Lines.BlockLineInLine` | internal/parser/conditionals.go:69-117 | a line of an if block is read as one, whatever follows |
| `Lines.IfThenMeans` | internal/parser/conditionals.go:16-66 | an if block and the lines after it: the block holds what its lines up to the first fi add, the lines after it go to the section |
| `Lines.NestedIf` | internal/parser/conditionals.go:42-66 | an if inside an if: the inner header is ignored, the inner lines join the outer block, the lines between the two fis are directives of the section, the outer fi is ignored |
| `Rejecting.RejectedIff` | internal/parser/parser.go:175-513 | a line of a section is rejected if and only if it starts with no directive or lacks the word, path, name or mode its directive needs |
| `Rejecting.BlockLineRejectedIff` | internal/parser/conditionals.go:69-117 | which lines of an if block are rejected, all others being ignored or entered |
| `Rejecting.IfRejectedIff` | internal/parser/conditionals.go:121-148 | which if headers are rejected |
| `Rejecting.UnclosedBlock` | internal/parser/conditionals.go:48-66 | a block without a fi before the next section or the end is rejected |
| `Rejecting.BrokenSectionOnly` | internal/parser/parser.go:85-97 | one broken section costs only itself: the sections before and after it are read and one error is reported |
| `Loading.RegisterConditionalRequiredVars` | internal/configmgr/mtaconfig_parser.go:74-89 | the loop copies the variables of exactly the blocks that hold, in order |
| `Loading.LoadAndPlanAgree` | internal/configmgr/conditional.go:20-50 | load and plan of the same snapshot agree on which if blocks hold, whichever way a condition is negated and also when its lookup fails |
| `Loading.ResolveLdap` | internal/configmgr/mtaconfig_parser.go:91-114 | every LDAP value is looked up; a failed lookup clears it |
| `Loading.ResolvedMeans` | internal/configmgr/mtaconfig_parser.go:91-114 | a value with a type is looked up, the type ending at the first colon; any other stays |
| `Loading.Load` | internal/configmgr/mtaconfig_parser.go:37-58 | exactly the enabled sections are loaded |
| `Loading.BlockRegisters` | internal/parser/conditionals.go:48-117 | the required variables of an if block are exactly what its lines register, in order |
| `Loading.LoadedRegisters` | internal/configmgr/mtaconfig_parser.go:68-89 | the required variables of a loaded section are what its lines and then its blocks that hold register, the last type of a name winning |
| `Loading.LookupRequiredIff` | internal/configmgr/mtaconfig_parser.go:68-89 | a lookup is a required variable if and only if its type is the last one its name is used under; always when no name has two types |
| `Loading.ChangedLookupListsSection` | internal/plan/compute.go:193-283 | parser, loader and diff agree: a compared section is listed if and only if it is asked for, runs first, is assumed changed, or a lookup in force after its header changed whose type is the last of its name |
| `Loading.ConsistentWins` | internal/configmgr/mtaconfig_parser.go:68-89 | where no name has two types, that is every lookup in force |
| `Loading.ShadowedTypeGoesUnseen` | internal/configmgr/mtaconfig_parser.go:74-89 | a file and two snapshots for which a changed lookup does not list its section |
| `Loading.ParseMtaConfig` | internal/configmgr/mtaconfig_parser.go:19-66 | nothing is loaded from a file with an error; otherwise its enabled sections, each needing exactly the lookups in force after its header |
| `Parser.Parser.constructor` | internal/parser/parser.go:45-53 | the parser starts at the first token |
| `Parser.Parser.Advance` | internal/parser/conditionals.go:201-212 | one token is consumed and a lexer error recorded once |
| `Parser.Parser.SkipToNewline` | internal/parser/conditionals.go:226-230 | follows the grammar and terminates |
| `Parser.Parser.SkipToSection` | internal/parser/conditionals.go:232-236 | follows the grammar and terminates |
| `Parser.Parser.SkipNewlines` | internal/parser/parser.go:103-105 | follows the grammar and terminates |
| `Parser.Parser.ReadWords` | internal/parser/parser.go:461-464 | follows the grammar and terminates |
| `Parser.Parser.ParseValue` | internal/parser/parser.go:528-567 | the value loop consumes a token per turn and yields the joined parts |
| `Parser.Parser.ParsePostconfLine` | internal/parser/parser.go:319-348 | follows the grammar of POSTCONF lines, errors included |
| `Parser.Parser.ParseConditionalLine` | internal/parser/conditionals.go:69-117 | follows the grammar of block lines |
| `Parser.Parser.ParseConditionalBody` | internal/parser/conditionals.go:48-66 | the block loop terminates and ends where the grammar says |
| `Parser.Parser.ParseConditional` | internal/parser/conditionals.go:16-40 | a complete block joins the section, a broken one changes nothing |
| `Parser.Parser.ParseRewrite` | internal/parser/parser.go:218-255 | follows the grammar of REWRITE |
| `Parser.Parser.ParseRequiredVar` | internal/parser/parser.go:261-296 | the variable becomes required under its type |
| `Parser.Parser.ParsePostconf` | internal/parser/parser.go:425-454 | the parameter is recorded and its lookup registered |
| `Parser.Parser.ParseLdap` | internal/parser/parser.go:476-513 | only LOCAL and MAPLOCAL values are recorded |
| `Parser.Parser.ParseDirective` | internal/parser/parser.go:175-215 | dispatches as the grammar says |
| `Parser.Parser.ParseBody` | internal/parser/parser.go:155-166 | the directive loop terminates and ends where the grammar says |
| `Parser.Parser.ParseSection` | internal/parser/parser.go:101-172 | a complete section joins the file, a broken one does not |
| `Parser.Parser.ParseSections` | internal/parser/parser.go:85-97 | the section loop terminates, with recovery at the next SECTION, and counts exactly the errors of the grammar |
| `Parser.ParseString` | internal/parser/parser.go:67-98 | terminates on every content; fails exactly for an empty file, a grammar error or a character that starts no token |
| `Printing.PlainLinesAdd` | internal/parser/parser.go:175-526 | the printed lines of a section give the section back, field by field |
| `Printing.BlockReads` | internal/parser/conditionals.go:16-148 | the printed lines of an if block give the block back |
| `Printing.PrintedFileParses` | internal/parser/parser.go:67-172 | every printable configuration is what the grammar reads from its printed form, without errors |
| `Printing.PiecesRead` | internal/parser/parser.go:528-567 | a value of several parts: each part keeps its form and single blanks join them |
| `Printing.KeywordMeans` | internal/parser/lexer.go:132-161 | a word is a keyword exactly when it spells its name in any case; every other word is an identifier |
| `Printing.OtherLdapDropped` | internal/parser/parser.go:476-513 | an LDAP line with any other value is read and dropped |
| `Rendering.RenderedTokens` | internal/parser/lexer.go:163-237 | the lexer reads rendered tokens back, whatever the blanks, the comments and the words without quotes |
| `Rendering.PrintAndParse` | internal/parser/parser.go:67-98 | parsing a text of a printable configuration, in whatever style it is written, succeeds and gives the configuration back |

## Left out

- Builder.Builder.CompileParams: the lines of the if blocks are entered right after the section's own ones, not after the LDAP lines; no other list shares their keys.
- Builder.Builder.PruneLists: a list is the entries of one or more kinds of the table, and the loops visit them in any order.
- RestartLoop.RestartLoopEnds: assumes that the tracked services are the enabled ones, because otherwise a toggle recurs in every cycle; `PlannerFacts.QuietPlanEmptyIff` is the exact condition.
- HostPlan.PlanHost: the comparison of each action with the host is a parameter; it never speaks about the proxy generator, which the third pass decides.
- Watcher.RunState.Step: an absent fingerprint map counts as a failed read; logging and metric callbacks are not modelled.
- ChangeStream.NotificationsServedInTime: assumes that time passes only while the serving loop is blocked, and that reads take no time.
- Interpolation.InterpolateIsExpand: literal text has no '{', and neither have the names inside references.
- Loading.ParseMtaConfig: looking up a value is a parameter, the same for all sections of one load.
- Printing.PrintedFileParses: the printer is not part of the program; a value that starts like a lookup must be one of the four kinds a keyword names, and a variable must be looked up or have a type with a directive of its own.
- LdapModify.Client.ModifyValues: one writer, values and attribute names compared exactly, and a lost request has its effect before the next attempt or never.
- Lexing.Lexer.NextToken: the character classes are parameters with the few properties the lexer relies on; line and column numbers, read errors and the unused lookahead token are not modelled.
- Parser.ParseString: error messages are kinds without line numbers, and words are compared in upper case by ASCII rules.
- RewriteProtocol.RunInv: the queue of requested sections is an atomic set; cancelled contexts and shutdown end a run instead of being steps of it.
- Reading and comparing the host, rendering templates, the postfix and systemd commands, LDAP connections and searches, sockets, signals and file writes are outcomes chosen by the environment, not models.
- The reconnect loop of the change stream (only back-off arithmetic beyond `Watcher.RunState.PollFailed`) and the switch between modes, which the watcher theorems allow at any point.
- Panic recovery: a panic in the middle of a cycle is not modelled.
- The restart policy, the snapshot store, the service manager and the proxy template generator, whose behaviour enters only as arbitrary results.
- Network server limits and command parsing, command-line wiring, metrics, logging, generated localconfig tables and plan rendering.
