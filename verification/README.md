# NSX-T infrastructure of the vSphere provider extension: a verified model

A shoot cluster on vSphere needs a handful of NSX-T objects: a tier-1 gateway with its locale service, a segment, DHCP,
an address allocation and a NAT rule. The *ensurer* creates them by an ordered list of tasks and deletes them in reverse
order. It keeps references to what it made in a state record, and tags every object with its owner, so that it can
recover references that were lost. Runs stop at any API call, status writes get lost, and many shoots share one store.
This project models that protocol, proves what it keeps over all runs and interleavings, and states exactly where it
breaks. It also covers the arithmetic and the searches the protocol rests on, and two smaller cores of the extension.

`dafny verify dfyconfig.toml` checks the whole project.

## How it is built

- `Protocol.dfy` is the ensurer as a reactive machine: a *run* waits for the answer to one API call, `NextOp` is that
  call, `Resume` is what happens next. All tasks, versions 2 (policy API only) and 1 (with the Advanced API), external
  tier-1 gateways, nil dereferences included. `Plan.dfy` has the order of the tasks.
- `Ensurer.dfy` and `Actuator.dfy` are the code in its own form: classes with nullable fields, loops over the task list.
  Every API call is proved to be the one the machine issues, and every method to end where the machine ends.
- `World.dfy` is the store and a system of many shoots, with an event for each API call, each fault and each crash.
- Results under all faults, from any recorded state, in any interleaving: `Isolation.dfy` (shoots do not touch each
  other), `Convergence.dfy`, `Stability.dfy` and `Integrity.dfy` (creation runs), `Deletion.dfy` (deletion runs),
  `Progress.dfy` (runs end, and exactly when they succeed), `StatusGate.dfy` (the persisted flag).
- `Content.dfy` says what is in the objects, attribute by attribute, in terms of store, catalog and spec; `Records.dfy` what
  is recorded besides references: the segment's name, the address, an external gateway.
- Results that need some faults to be absent: `Anchoring.dfy` (what is recorded exists), `Recovery.dfy` (no duplicates,
  references), `Conservation.dfy` (deletion undoes creation). `Departures.dfy` and `Orphans.dfy` have what goes wrong
  otherwise.
- `Tags.dfy`, `Addressing.dfy`, `Authorization.dfy` and `Paging.dfy` are the helpers, `References.dfy` says what objects
  refer to, `LoadBalancer.dfy` and `MachineImages.dfy` are the smaller cores, `Basics.dfy` an option type.

Faults: a call *works*, is *refused* (no effect, an error), or is *lost* (its effect happens, the answer is an error). A
*strict* object is one whose deletion does not tolerate that it is gone: tier-1 gateway, DHCP configuration, segment,
address allocation, NAT rule. A shoot's events are *orderly* (`Recovery.Orderly`) under the conditions below; creation
runs may otherwise fail, crash and lose their status at any call, deletion runs may fail at any call, and the other
shoots are free to do anything. Each condition is there for a reason: a lemma says what follows, in every system in good
order, when it is violated. The last two speak of the store; where no deletion is lost and no deletion run is cut off, they
hold wherever creation runs are (`Conservation.TrackedIsOrderly`), and `Conservation.ConservationFromPristine` has
conditions on events alone.

| condition | without it |
|---|---|
| when creating, the listings of kinds work of which the shoot owns an object | a second object of the kind is created: `Departures.FailedListingDuplicates` |
| the same when recovering; and if the shoot owns an allocation, the lookup of the SNAT pool works, if a rule, the read of an external gateway | the deletion succeeds and leaves an object, the allocation, or the rule behind: `Departures.FailedRecoveryLeaves` |
| no strict object is deleted without an answer | no later deletion run ever succeeds: `Departures.LostAnswerSticks` |
| a deletion run does not crash, or lose its final status write, when it has deleted a recorded strict object, or, in version 1, the recorded DHCP server and its pool (`Departures.WhenNotExpendable`) | in the first case no later deletion run ever succeeds: `Departures.ForgottenDeletionSticks`; in version 1 with server and pool, and in version 2 with gateway and rule, the next creation run is to make the parent anew (`Orphans.OrphanArises`, `Orphans.OrphanCanArise`), and should that be refused, every deletion run dereferences nil: `Orphans.OrphanPanics` |
| a creation run does not, when it has made an object anew that is recorded but gone | the new object is left behind by the next deletion run: `Departures.ForgottenCreationLeaves` |

## Where the code departs from what one expects

- A locale service that is recorded but gone makes its task forget the gateway instead of itself
  (`pkg/vsphere/infrastructure/task/tasks.go:319-321`); the task then asks for ever. The machine does what the code
  does; `Departures.GoneLocaleNeverEnds` states the consequence, `Departures.LocaleAsMeant` the intended step.
- A deletion gets past an object that is gone only in the Advanced API and for the locale service. Of the policy API, a
  recorded strict object that is gone makes deletion runs fail for good: `Deletion.DeletionSucceedsIff`.
- Some attributes are compared but never sent, so they differ for ever and the object is patched in every run: the
  destination of a rule, the DHCP configuration of a segment of version 1, and the name of a segment whose name is not
  recorded (`pkg/vsphere/infrastructure/task/tasks.go:521-538,708-725`). `Convergence.Agreement` says exactly when,
  `Convergence.DestinationSurvives` follows one through all runs.
- The logical switch lookup of version 1 dereferences the segment without a test
  (`pkg/vsphere/infrastructure/task/tasks_advanced_dhcp.go:53-59`), and deletions dereference parents
  (`pkg/vsphere/infrastructure/task/tasks.go:636,753`): `Deletion.DeletionPanicsIff`, `Recovery.SwitchLookupPanics`.
- The action of a NAT rule is compared by address (`pkg/vsphere/infrastructure/task/tasks.go:709`), so rules are
  always patched (`Content.RuleIsPatched`); the patch changes nothing (`Stability.SecondRun`).
- Route advertisements with repeated entries count as equal (`pkg/vsphere/infrastructure/task/taskhelper.go:165-182`) and are
  left as they are (`Content.RepeatedAdsAreLeft`).
- A locale service that is there but is not found by its tags is created over, and loses the tags of others
  (`pkg/vsphere/infrastructure/task/tasks.go:340-343`): the one exception of `Content.OthersTagsSurvive`.
- If the first run dies, or the status write after it is lost, a deletion skips the store
  (`StatusGate.LostFirstOutcomeLeaks`); `StatusGate.LostFirstOutcome` says exactly when.
- `cidrHost` looks at four bytes of its index only (`pkg/vsphere/infrastructure/task/helpers.go:69-105`):
  `Addressing.RangeIff` says for which indexes this matters, `Addressing.HugeIndexAccepted` has one.
- Entries of the authorization tag are not escaped (`pkg/vsphere/infrastructure/task/taskhelper.go:345-350`), so a dot
  matches anything in an entry that has a star: `Authorization.MeaningKeptIff`.
- The update validation assumes a pool named "dummy" and a class named "default"
  (`pkg/apis/vsphere/validation/controlplane.go:65-67`): `LoadBalancer.AcceptedIsSound`, `LoadBalancer.SoundForAllIff`,
  `LoadBalancer.AcceptedUnseen`.
- A search by name goes on for ever on empty pages (`pkg/vsphere/infrastructure/task/taskhelper.go:305-324`):
  `Paging.LookupMayNotEnd`.
- A missing cloud profile is dereferenced before it is tested for (`pkg/controller/worker/machine_images.go:50-58`):
  `MachineImages.Resolve` panics there.

## Model

| member | source | states |
|---|---|---|
| Isolation.Isolation | pkg/vsphere/infrastructure/ensurer/ensurer.go:168-261 | in every interleaving of shoots with distinct garden and cluster names, under all faults, an event changes only objects issued to its own shoot, and tagged for it if its objects were tagged at the start; external gateways and what others own stay as they are |
| Isolation.RunsStayIsolated | pkg/vsphere/infrastructure/ensurer/ensurer.go:202-229 | tags tell the truth about owners, and every recorded reference was issued to its shoot, at every moment of every run |
| Isolation.TaggedOnce | pkg/vsphere/infrastructure/infraspec.go:38-50 | no object carries the tags of two shoots, by garden id in the policy API, by garden name in the Advanced API |
| Plan.TasksAreOrdered | pkg/vsphere/infrastructure/ensurer/ensurer.go:135-166 | the task list contains exactly the tasks of its version, in an order compatible with all references |
| Convergence.CreationNeverPanics | pkg/vsphere/infrastructure/task/tasks.go:683-719 | a creation run, of either version, from any recorded state, under all faults and in any interleaving, never dereferences nil |
| Convergence.Convergence | pkg/vsphere/infrastructure/task/tasks.go:207-229 | when a creation run succeeds, among any other shoots, from any recorded state and whatever attributes and tags its objects had, every object is there, is the shoot's, and has each attribute that its task sends, and the shoot's tags; attributes that are not sent are as they were |
| Convergence.AgreesIff | pkg/vsphere/infrastructure/task/tasks.go:699-725 | then each object agrees with the spec as the code compares them if and only if before the run it had no compared attribute that is not sent, or was not there |
| Convergence.Agreement | pkg/vsphere/infrastructure/task/tasks.go:512-538 | kind by kind: all agree outright, but for rules that had a destination, segments of version 1 that had a DHCP configuration, and segments of unrecorded name that had one |
| Convergence.DestinationSurvives | pkg/vsphere/infrastructure/task/tasks.go:708-725 | the destination of a rule survives every run of every shoot, for as long as the rule exists |
| Convergence.SegmentVersion | pkg/vsphere/infrastructure/task/tasks.go:496-509 | the segment task's own version test agrees with the version of the task list |
| Content.WhatIsLeft | pkg/vsphere/infrastructure/task/tasks.go:191-545 | when a creation run succeeds, every recorded object of the shoot's own is there and has the attributes the spec asks for: tier-0, edge cluster and transport zone by the catalog under their names in the spec, the connectivity of the segment its gateway, own or external, rule, port, server and pool likewise; it lies where it should and carries the shoot's tags |
| Content.EveryObjectIsRight | pkg/vsphere/infrastructure/ensurer/ensurer.go:168-191 | in good order the shoot owns no other objects: each is in its place and as the spec asks for it |
| Content.WhatIsSent | pkg/vsphere/infrastructure/task/tasks.go:496-545 | at every moment of a creation run, under all faults, what is about to be created or patched has these attributes; what is created has just the two tags, by garden id in the policy API, by name in the Advanced API, and its name |
| Content.OthersTagsSurvive | pkg/vsphere/infrastructure/task/helpers.go:157-170 | over all events of all shoots, an object that stays keeps every tag of other scopes, in order, but for a locale service that is created over |
| Content.OnlyThesePatches | pkg/vsphere/infrastructure/task/tasks.go:524-538 | once a creation run has succeeded and its state is recorded, further ones patch only rules, and segments with an attribute that is compared but not sent |
| Content.RuleIsPatched | pkg/vsphere/infrastructure/task/tasks.go:708-725 | a rule that is found is patched, whatever it is like |
| Content.RepeatedAdsAreLeft | pkg/vsphere/infrastructure/task/taskhelper.go:165-182 | a gateway that advertises one of the wanted types four times is left as it is |
| Records.RunsEndTidy | pkg/vsphere/infrastructure/task/tasks.go:563-574 | whatever the API answers, a run never carries a segment name without a segment or an address without an allocation; a deletion run that succeeds ends with no own reference, no address and no name |
| Records.RecordsStayTidy | pkg/controller/infrastructure/actuator_delete.go:55-62 | the same for what is recorded, over all events of all shoots |
| Records.NameIsDisplayName | pkg/vsphere/infrastructure/task/tasks.go:540-558 | under all faults, if the recorded segment is there, the recorded name is its display name |
| Records.GatewaysAreAdmitted | pkg/vsphere/infrastructure/task/tasks.go:240-257 | under all faults, an external gateway is recorded only if its tags name the shoot's garden and one of their entries accepts its namespace |
| Stability.SecondRun | pkg/vsphere/infrastructure/task/tasks.go:512-538 | once a creation run has succeeded and its state is recorded, no event of the shoot's further reconciles changes the store, the recorded state, or the state of a run, whatever fails and whatever others do |
| Integrity.CreatesReferToExisting | pkg/vsphere/infrastructure/ensurer/ensurer.go:135-166 | under all faults, whatever an object that is about to be created refers to, by parent or by attribute, exists, is the shoot's own, and comes earlier in the list |
| Integrity.IntegrityWithoutDeletion | pkg/vsphere/infrastructure/ensurer/ensurer.go:168-191 | as long as the shoot is not deleted, under all faults, every object of it finds all objects it depends on |
| Deletion.DeletionPanicsIff | pkg/vsphere/infrastructure/ensurer/ensurer.go:231-261 | some answers make a deletion run dereference nil if and only if the recorded state has a reference without its parent, is external without a gateway, or is of version 1 with neither segment nor logical switch |
| Deletion.DeletionNeverPanics | pkg/vsphere/infrastructure/task/tasks.go:631-641 | from a state that has all of these, a deletion run never dereferences nil, under all faults and in any interleaving |
| Deletion.DeletionSucceedsIff | pkg/vsphere/infrastructure/ensurer/ensurer.go:249-259 | from such a state, a deletion run whose calls work succeeds if and only if no recorded gateway, DHCP configuration, segment, allocation or rule is gone; locale services and objects of the Advanced API may be |
| Deletion.DeletionStaysStuck | pkg/vsphere/infrastructure/task/tasks.go:748-759 | once one of these is gone, no deletion run ever succeeds, whatever works or fails, while no creation run intervenes |
| Progress.EveryAnswerCounts | pkg/vsphere/infrastructure/ensurer/ensurer.go:168-261 | every answer brings a run closer to its end if and only if it is not that the recorded locale service is gone |
| Progress.NotFoundRetry | pkg/vsphere/infrastructure/task/tasks.go:512-519 | a recorded object that is gone is forgotten and created exactly once, every other reference stays, and the reference is the new one |
| Progress.AnswerExists | pkg/vsphere/infrastructure/task/taskhelper.go:86-88 | whatever a run asks, the store has an answer that works: a fresh id for a creation, a complete listing |
| Progress.RunCanEnd | pkg/vsphere/infrastructure/ensurer/ensurer.go:168-261 | a run that deletes, or creates with nothing in its way, can always be brought to its end by calls that work |
| Progress.CallsAreBounded | pkg/vsphere/infrastructure/ensurer/ensurer.go:168-261 | it takes at most 131 calls of its own, whatever others do in between |
| Progress.CreationSucceedsIff | pkg/vsphere/infrastructure/ensurer/ensurer.go:168-191 | a creation run whose calls work and whose names can be looked up succeeds if and only if the network is large enough for DHCP and a locale service it has recorded is there |
| Progress.GoneLocaleNeverSucceeds | pkg/vsphere/infrastructure/task/tasks.go:317-322 | with its locale service recorded but gone, a creation run never succeeds, whatever its calls answer |
| Anchoring.ParentsAreRecorded | pkg/vsphere/infrastructure/task/tasks_advanced_dhcp.go:484-498 | if no deletion is lost and no deletion run crashes or loses its status, then whatever else fails, the recorded state has every reference's parent and nothing it records is gone |
| Anchoring.NoPanic | pkg/vsphere/infrastructure/ensurer/ensurer.go:202-261 | then no run of the shoot ever dereferences nil, but for recoveries of version 1 that start without segment and logical switch |
| Recovery.OneObjectOfAKind | pkg/vsphere/infrastructure/task/taskhelper.go:207-245 | over orderly events the store never holds two objects of one kind with the tags of one shoot |
| Recovery.NothingDangles | pkg/vsphere/infrastructure/ensurer/ensurer.go:249-259 | over orderly events, deletions included, whatever an object of a shoot refers to exists, is the shoot's own, and comes earlier in the list |
| Recovery.SwitchLookupPanics | pkg/vsphere/infrastructure/task/tasks_advanced_dhcp.go:43-60 | looking up the logical switch in a recovery panics if and only if the shoot owns no segment |
| Recovery.RunsStayInGoodOrder | pkg/vsphere/infrastructure/ensurer/ensurer.go:168-261 | the invariant behind these: recovery is complete before deletion starts, and what is recorded may be gone only if deletions get past it, nothing is reached through it, and the shoot owns nothing from there on |
| Conservation.Conservation | pkg/vsphere/infrastructure/ensurer/ensurer.go:168-261 | any orderly runs, cut off wherever, followed by one deletion run that succeeds, leave the store exactly as before the first |
| Conservation.ConservationFromNothing | pkg/vsphere/infrastructure/ensurer/ensurer.go:231-248 | so does a deletion that starts from an empty state, with the spec alone |
| Conservation.DeletionIsComplete | pkg/vsphere/infrastructure/ensurer/ensurer.go:231-261 | among other shoots: after a deletion that succeeds the shoot owns nothing, and none of its events ever changed what is not its own |
| Conservation.RecordsWhatIsLeft | pkg/vsphere/infrastructure/ensurer/ensurer.go:249-259 | the state a deletion run ends with, aborted or not, records exactly the objects that are left; what else it records, deletions get past |
| Conservation.ReferencesShrink | pkg/controller/infrastructure/actuator_delete.go:55-62 | over aborted deletion runs whose status is written recorded references only shrink; recovery brings back no deleted object |
| Conservation.SameEnd | pkg/vsphere/infrastructure/ensurer/ensurer.go:231-261 | aborted runs and then a success end in the same store as one uninterrupted run |
| Conservation.TrackedIsOrderly | pkg/vsphere/infrastructure/ensurer/ensurer.go:168-261 | if no deletion is lost, no deletion run crashes or loses its status, and listings of owned objects work, then all events are orderly: creation runs may die or lose their status at any moment |
| Conservation.CreationIsOrderly | pkg/vsphere/infrastructure/ensurer/ensurer.go:168-191 | creation runs whose listings are answered are orderly, wherever they are cut off |
| Conservation.ConservationFromPristine | pkg/vsphere/infrastructure/ensurer/ensurer.go:168-261 | from nothing, any creation runs whose listings are answered, cut off at any call, with status kept or lost, and then one deletion run whose listings are answered: if it succeeds, the shoot owns nothing, and the store is as it was if it was alone |
| Conservation.PristineIsInOrder | pkg/vsphere/infrastructure/ensurer/ensurer.go:105-127 | a system in which nothing was created yet is in good order, anchored, and owns nothing |
| StatusGate.PristineIsGated | pkg/controller/infrastructure/actuator_reconcile.go:149-155 | and the gate is closed there |
| StatusGate.GateHolds | pkg/controller/infrastructure/actuator_reconcile.go:149-187 | under all faults, creationStarted never goes back, and no shoot owns an object or runs before it is persisted |
| StatusGate.CreatedAfterStart | pkg/controller/infrastructure/actuator_reconcile.go:156-171 | an event that creates an object finds creationStarted persisted as true |
| StatusGate.StartedByReconcile | pkg/controller/infrastructure/actuator_reconcile.go:156-171 | creationStarted becomes true in one way only: a reconcile of the shoot was prepared, reached the API and kept its early write |
| StatusGate.ReconcileStarts | pkg/controller/infrastructure/actuator_reconcile.go:156-171 | exactly when a reconcile runs, and what its early write leaves: false if it was not prepared or not connected, and the state as it was |
| StatusGate.WrongCredentials | pkg/controller/infrastructure/actuator_reconcile.go:157-164 | after a first reconcile with wrong credentials the shoot owns nothing, and deletions do nothing, until a reconcile starts creation |
| StatusGate.DeleteStarts | pkg/controller/infrastructure/actuator_delete.go:28-45 | a deletion runs if and only if it is prepared, creation has started and a state is recorded |
| StatusGate.SkippedOnlyWhenEmpty | pkg/controller/infrastructure/actuator_delete.go:28-36 | deletion skips the store only when the shoot owns nothing, if the outcome of the first run was recorded |
| StatusGate.LostFirstOutcome | pkg/controller/infrastructure/actuator_reconcile.go:182-187 | after a run has ended, deletion would skip if and only if there was no state before and the run died or its write was lost |
| StatusGate.LostFirstOutcomeLeaks | pkg/controller/infrastructure/actuator_delete.go:33-36 | and then objects stay behind |
| Departures.FailedListingDuplicates | pkg/vsphere/infrastructure/task/taskhelper.go:212-215 | in every system in good order, a failing listing while creating leads to a second object of the kind |
| Departures.FailedRecoveryLeaves | pkg/vsphere/infrastructure/ensurer/ensurer.go:238-246 | a failing listing, pool lookup or gateway read of a recovery is swallowed, and the deletion then succeeds and leaves the object behind |
| Departures.LostAnswerSticks | pkg/vsphere/infrastructure/task/tasks.go:272-287 | a strict object whose deletion is not acknowledged makes all later deletion runs fail |
| Departures.WhenNotExpendable | pkg/controller/infrastructure/actuator_delete.go:57-62 | what is recorded misleads after a deletion run that dies if and only if a recorded strict object is gone, or in version 1 the DHCP server and its pool are |
| Departures.ForgottenDeletionSticks | pkg/controller/infrastructure/actuator_delete.go:57-62 | a deletion run that dies or loses its status write after it has deleted a recorded strict object makes all later ones fail |
| Departures.ForgottenCreationLeaves | pkg/vsphere/infrastructure/task/tasks_advanced_dhcp.go:82-87 | an object re-created by a run that dies or loses its status write is left behind by the next deletion run |
| Orphans.OrphanArises | pkg/vsphere/infrastructure/task/tasks.go:209-214 | in every system in good order in which a deletion run that has deleted gateway and rule, in version 1 DHCP server and pool, dies or loses its status write: if the next creation run comes to make the parent, whatever its calls answer, it has forgotten the parent's reference and still has the child's |
| Orphans.OrphanCanArise | pkg/vsphere/infrastructure/task/tasks_advanced_dhcp.go:225-229 | and working calls do bring it there, in version 2 always, in version 1 if the network is large enough for DHCP and the locale service is there |
| Orphans.OrphanPanics | pkg/vsphere/infrastructure/task/tasks.go:748-759 | if the creation of the parent is then refused, every deletion run dereferences nil, at the rule in version 2, at the pool in version 1, and neither succeeds nor fails |
| Departures.GoneLocaleNeverEnds | pkg/vsphere/infrastructure/task/tasks.go:317-322 | a creation run that finds its locale service gone neither succeeds nor fails as long as its calls are answered, and has lost the gateway's reference |
| Departures.LocaleAsMeant | pkg/vsphere/infrastructure/task/tasks.go:340-347 | forgetting its own reference would lead to the creation next |
| Ensurer.GetTasks | pkg/vsphere/infrastructure/ensurer/ensurer.go:135-166 | the list built by appending is the plan of the version |
| Ensurer.InfraEnsurer.EnsureInfrastructure | pkg/vsphere/infrastructure/ensurer/ensurer.go:168-191 | for all answers of the API, the loop ends when the machine ends, with its outcome and its state |
| Ensurer.InfraEnsurer.EnsureInfrastructureDeleted | pkg/vsphere/infrastructure/ensurer/ensurer.go:231-261 | likewise for recovery in order and deletion in reverse order |
| Ensurer.InfraEnsurer.TryRecoverFirst | pkg/vsphere/infrastructure/ensurer/ensurer.go:202-229 | tryRecover before Ensure follows the machine |
| Ensurer.InfraEnsurer.TryRecoverAll | pkg/vsphere/infrastructure/ensurer/ensurer.go:202-229 | tryRecover before a deletion follows the machine; errors are ignored, a nil dereference is not |
| Ensurer.InfraEnsurer.EnsureLookup | pkg/vsphere/infrastructure/task/tasks.go:99-112 | the lookups by name follow the machine |
| Ensurer.InfraEnsurer.EnsureExternal | pkg/vsphere/infrastructure/task/tasks.go:240-257 | an external gateway is read and recorded only if it admits the shoot |
| Ensurer.InfraEnsurer.Prepare | pkg/vsphere/infrastructure/task/tasks.go:489-509 | before its first call a task fails without a layout, if it needs one, and otherwise dereferences nil exactly if a reference of another task is missing |
| Ensurer.InfraEnsurer.EnsureObject | pkg/vsphere/infrastructure/task/tasks.go:489-550 | read, forget and retry, compare, patch, create: every task that creates an object follows the machine |
| Ensurer.InfraEnsurer.EnsureAddress | pkg/vsphere/infrastructure/task/tasks.go:657-667 | the address is that of the allocation, without which the task fails |
| Ensurer.InfraEnsurer.EnsureLogicalSwitch | pkg/vsphere/infrastructure/task/tasks_advanced_dhcp.go:43-60 | the logical switch lookup follows the machine, nil dereference included |
| Ensurer.InfraEnsurer.EnsureDeleted | pkg/vsphere/infrastructure/task/tasks.go:365-383 | deletion follows the machine: 404 is tolerated by the Advanced API, the locale service asks when in doubt |
| Actuator.Infrastructure.Reconcile | pkg/controller/infrastructure/actuator_reconcile.go:149-189 | the early and the final status write leave what the events of the system model leave |
| Actuator.Infrastructure.Delete | pkg/controller/infrastructure/actuator_delete.go:28-63 | likewise for delete, with its skip condition |
| Addressing.CidrHost | pkg/vsphere/infrastructure/task/helpers.go:69-105 | the byte loops compute network plus index, or network plus size plus a negative index, and fail exactly outside the host part |
| Addressing.HostExact | pkg/vsphere/infrastructure/task/helpers.go:69-105 | for indexes of at most four bytes it succeeds iff -size <= index < size, with that value and inside the network |
| Addressing.RangeIff | pkg/vsphere/infrastructure/task/helpers.go:69-105 | for an index of any size, success means -size <= index < size if and only if the index has at most four bytes, or its low four bytes are refused |
| Addressing.HugeIndexAccepted | pkg/vsphere/infrastructure/task/helpers.go:76-84 | one larger index that is accepted by its low bytes |
| Addressing.CidrSubnetMask | pkg/vsphere/infrastructure/task/helpers.go:119-137 | the mask as a number is 2^32 - 2^(32-p) |
| Addressing.NewDhcpConfigSteps | pkg/vsphere/infrastructure/task/taskhelper.go:260-298 | the steps compute the layout, or fail where the first of them does |
| Addressing.DhcpLayout | pkg/vsphere/infrastructure/task/taskhelper.go:260-298 | a layout exists iff the prefix is at most 28; then gateway, server and pool start are addresses 1, 2 and 10, the pool ends at the last one, leases last 7200 seconds |
| Authorization.CheckShootAuthorizationByTags | pkg/vsphere/infrastructure/task/taskhelper.go:327-362 | the loop over the entries decides authorization by the two tags |
| Authorization.RewritingKeepsMeaning | pkg/vsphere/infrastructure/task/taskhelper.go:345-356 | for entries of ordinary characters and stars, the rewritten expression accepts exactly the whole-string glob matches |
| Authorization.MeaningKeptIff | pkg/vsphere/infrastructure/task/taskhelper.go:343-359 | an entry of ordinary characters, dots and stars keeps its glob meaning for every namespace if and only if it has no star or no dot |
| Authorization.SplitJoin | pkg/vsphere/infrastructure/task/taskhelper.go:343 | the entries are the pieces between the commas |
| Authorization.AuthorizedMeansGlob | pkg/vsphere/infrastructure/task/taskhelper.go:327-362 | accepted iff the garden tag is non-empty and equal to the garden id and some entry matches the namespace |
| Tags.ContainsTagsLoop | pkg/vsphere/infrastructure/task/helpers.go:139-155 | the nested loops decide containment by the first item of each scope |
| Tags.MergeTagsLoop | pkg/vsphere/infrastructure/task/helpers.go:157-170 | the loops append exactly the tags of foreign scopes, in order |
| Tags.MergeContains | pkg/vsphere/infrastructure/task/helpers.go:139-170 | merged tags contain the wanted ones, if these have distinct scopes |
| Tags.MergeIdempotent | pkg/vsphere/infrastructure/task/tasks_advanced_dhcp.go:527-540 | merging again changes nothing |
| Tags.ForeignSurvives | pkg/vsphere/infrastructure/task/helpers.go:157-170 | all tags of foreign scopes survive, in order and in number |
| Tags.SubmapIff | pkg/vsphere/infrastructure/task/helpers.go:139-184 | containment, asked with distinct scopes, is the submap relation if and only if repeated scopes of the items agree in their first and last value |
| Tags.PermutationIff | pkg/vsphere/infrastructure/task/taskhelper.go:165-182 | the comparison accepts exactly the permutations of a list if and only if the list has no repetitions |
| Tags.EqualStringsLoop | pkg/vsphere/infrastructure/task/taskhelper.go:165-182 | the loops decide that comparison |
| Paging.LookupByName | pkg/vsphere/infrastructure/task/taskhelper.go:300-325 | the paged loop is the search turn by turn, on any answers |
| Paging.ReflectTryRecover | pkg/vsphere/infrastructure/task/taskhelper.go:207-245 | the loop ends on any answers whatever, after at most one call for each announced item |
| Paging.PagedIsLinear | pkg/vsphere/infrastructure/task/tasks.go:54-81 | on a faithful listing a paged search finds the first match of all pages together, and nothing iff no item matches |
| Paging.TryRecover | pkg/vsphere/infrastructure/task/taskhelper.go:203-245 | on a faithful listing, whatever its pages, recovery finds the first item of all that carries the tags |
| Paging.LookupEnds | pkg/vsphere/infrastructure/task/taskhelper.go:305-324 | a search by name ends where pages are not empty and announce a bounded number of items |
| Paging.RecoveryIsFirstMatch | pkg/vsphere/infrastructure/task/taskhelper.go:221-235 | the scan for the tags is the first match the protocol uses |
| Paging.LookupMayNotEnd | pkg/vsphere/infrastructure/task/taskhelper.go:305-324 | a search by name goes on for ever on empty pages |
| LoadBalancer.OverwriteLoadBalancerClasses | pkg/apis/vsphere/validation/controlplane.go:116-175 | for any profile and any check: one class for each of the shoot, each value the shoot's, else the profile's first class of that name, else unset; the default class; refused iff some class names a pool the check refuses |
| LoadBalancer.ValidateControlPlaneConfigUpdate | pkg/apis/vsphere/validation/controlplane.go:54-87 | no error iff the sizes are equal, nil and empty alike, and the assumed default class stays |
| LoadBalancer.HasRelevantControlPlaneConfigUpdates | pkg/apis/vsphere/validation/controlplane.go:101-111 | relevant iff the assumed default classes differ |
| LoadBalancer.EffectiveDefault | pkg/apis/vsphere/validation/controlplane.go:121-172 | under every non-empty profile with distinct names, the effective default class is the profile's default class with what the shoot lays over that name |
| LoadBalancer.AcceptedIsSound | pkg/apis/vsphere/validation/controlplane.go:54-87 | an accepted update changes the default class under no profile, if and only if it does not switch between the pool "dummy" and no pool |
| LoadBalancer.RefusedIsNeeded | pkg/apis/vsphere/validation/controlplane.go:54-87 | what changes the default class under no profile is accepted |
| LoadBalancer.RelevantIsRefused | pkg/apis/vsphere/validation/controlplane.go:101-111 | updates are relevant exactly when the validation of the classes refuses them |
| LoadBalancer.SoundForAllIff | pkg/apis/vsphere/validation/controlplane.go:123-132 | an update changes the default class under no non-empty profile with distinct names, one named default or not, if and only if both configs lay the same values over the class of every name |
| LoadBalancer.AcceptedUnseen | pkg/apis/vsphere/validation/controlplane.go:54-87 | the validation accepts any new pool for a class of another name, though there are profiles where that changes the default class |
| MachineImages.FindMachineImage | pkg/apis/vsphere/helper/helper.go:29-36 | the first entry of the name and version |
| MachineImages.FindImage | pkg/apis/vsphere/helper/helper.go:41-57 | the first version under any entry of the name |
| MachineImages.FindRegion | pkg/apis/vsphere/helper/helper.go:60-67 | the first region of the name |
| MachineImages.WorkerDelegate.FindWorkerImage | pkg/controller/worker/machine_images.go:49-81 | region, profile, status, in this order, and which failure |
| MachineImages.RegionComesFirst | pkg/controller/worker/machine_images.go:50-58 | an image that the worker's region lists resolves to that path and guest id, whatever the global list and the status hold |
| MachineImages.GlobalComesNext | pkg/controller/worker/machine_images.go:59-64 | one listed only globally resolves to the global entry, whatever the status holds |
| MachineImages.StatusComesLast | pkg/controller/worker/machine_images.go:66-81 | one listed in neither resolves to the stored entry; without one it is not found, and a status that cannot be decoded fails |
| MachineImages.WorkerDelegate.CollectImages | pkg/controller/worker/machines.go:123-140 | the pool loop succeeds iff all images resolve, and collects each once |
| MachineImages.WorkerDelegate.UpdateMachineImagesStatus | pkg/controller/worker/machine_images.go:32-47 | what is stored, and when |
| MachineImages.CollectedOnce | pkg/controller/worker/machine_images.go:87-92 | exactly one entry for each image in use, with what it resolved to, and no other |
| MachineImages.UsedImagesStayResolvable | pkg/apis/vsphere/types_worker.go:27-31 | once resolved and stored, images that stay in use resolve after any later reconciles, under any profile; if no later profile lists an image, to the same path and guest id |
| MachineImages.RememberedIff | pkg/controller/worker/machine_images.go:45-46 | after a reconcile that kept its write, an image resolves under an empty profile if and only if a pool used it |
| MachineImages.ReconcileOnce | pkg/controller/worker/machine_images.go:32-47 | one reconcile leaves the status that the results over many reconciles speak of |

## Left out

- NSX-T connectors, HTTP, tokens, vAPI conversion and error texts: a call has an answer, is not found, or fails.
- NSX-T server internals: deletions are not refused for being referred to, and no third party changes objects during a
  run; `Convergence.dfy` starts from objects with any attributes and tags instead.
- Object paths are identified with kind, parent and id; the logical switch of a segment is identified with the segment.
- The policy API keeps attributes that a patch does not send, the Advanced API replaces the object; revisions are not modelled.
- Paging inside the protocol: a listing is one call there; `Paging.dfy` treats the pages.
- Lookups by name are a catalog that does not change; the realized address stands for its allocation, and polling for it is one call.
- DHCP options are an unordered attribute of segment or server; malformed options 15 and 121 make no error here.
- A workers network is given as four bytes and a prefix length; its text, IPv6, and IPv4-mapped networks are not parsed.
- Identifiers are fresh numbers; the random suffix of a segment name is part of the draw.
- Choosing the version of a new state (its failure included) is part of the spec; deleting with no spec, as the command line tool can, is not modelled.
- A status that cannot be decoded and the clean-up of load balancers before a deletion: plumbing around the runs.
- Tags with nil scope or value, and objects without a name where the code dereferences it.
- Regular expressions beyond what an entry can contain: characters, `.`, `*` and the anchors; other entries do not compile here.
- Validation error lists are reduced to whether there is an error; feature gates and field checks are left out.
- Cloud-profile, shoot and secret validation, machine classes, charts, webhooks: they would only add easy members.
- Ensurer.InfraEnsurer.EnsureObject: one method for all tasks that differ only in kind, attributes and parent; `Protocol.WantedAttrs` has what differs.
- Paging.LookupByName: on given answers only, after which calls fail; that it need not end otherwise is `Paging.LookupMayNotEnd`.
- Authorization.CheckShootAuthorizationByTags: entries with other expression syntax (classes, groups, repetitions) never match here, although Go compiles many of them.
