# A model of the mock storage operator, with proofs

The operator replicates a group of persistent volume claims between two clusters with VolSync and moves an
application from one to the other. This project models its reconcile loops, writes and re-reads included, over a
shared cluster state, and proves under exactly which writes volumes survive, that a relocation loses no data, that
deletion is guarded, and that the schedule arithmetic does what the interval text says.

## How the model is built

- **The cluster** (`Objects`, `System`) is a value `World`: claims, volumes, sources (RS), destinations (RD), pods,
  jobs, secrets, VRGs, the VGR, and two ghost-like counters, the version of each volume's content and of its remote
  copy. `Apply` gives the state after a step, where a step is one write of the operator or one event of the
  environment: a user deletes a claim, a controller adds or releases a finalizer, a pod starts, writes or leaves, VolSync syncs, an address is assigned, the VRG
  or the VGR changes. Deleting an object with finalizers only marks it, and clearing the last finalizer of a marked
  object removes it.
- **The API server** (`Api.Cluster`) is an object with that state. Between any two calls the environment takes any
  number of steps. Any call may fail without effect; a crash is a reconcile whose remaining calls all fail. An update
  carries the value that was read and fails with a conflict if the object has changed. Every write has the
  precondition `Legal`, so verifying the operator's methods shows that each of its writes is legal where it is made.
- **The setting** says what is assumed of a run: `relocating` (the VRG can be read and stays Relocate/Secondary, and no
  application pod starts), `reliable` (no call fails without a reason in the cluster), `calm` (the environment acts
  between reconciles only), `plain` (no other controller puts a finalizer on a stand-in, so deleting one removes it at
  once). Safety is proved with none of them, or with the ones that the property names. `calm` is used where a method's
  exact result is stated.
- **The operator** (`Handler`, `FinalSyncs`, `SecondarySide`, `PrimarySide`, `DeletionSide`, `Controller`) consists of
  classes and methods as in the source, one class per Go receiver, with the source's loops, early returns and ignored errors;
  some methods are split into steps.
  `Handoff`, `Replication`, `SyncSteps`, `Demotion` and `Cleanup` hold the functions and predicates that specify them;
  `Legality` holds lemmas about single writes.
- **The theorems** are in `Theorems` (what holds over whole runs), `Failures` (exactly which writes lose a volume's claims
  or its reference, how runs come to make them, and runs that do), `RoundTrip` (hand-off and restore together),
  `Convergence` (a group restored by reconciles), `Progress` (the phases of a whole relocation) and `Schedule`. `Protocol` holds
  the invariant and the legality of each write, and `Safety` shows that every event and every legal write keeps the
  invariant. `Controller.VGRReconciler.Operate` closes the circle: any mix of reconciles and events is a legal run.

Assumptions about the world outside the operator: application claim names do not end in "-tmp"; the group's claims are
in the VGR's namespace, have a volume each, and start with a source that has not recorded a final sync; users delete
only claims that carry the operator's finalizer; nobody else creates or deletes main or stand-in claims, sources or
destinations; application pods do not mount stand-ins; the selector tests only the three labels that a restore keeps;
a VolSync sync is atomic; a source that is back on a schedule loses the record of its manual sync. Under `relocating`
the selector matches the claims of the group, and the VRG that owns the VGR is in the VGR's namespace.

Where code and documentation disagree, the model follows the code:

- `AreAllRSFinalSyncsComplete` is true when the namespace has no sources.
- The comparison of an error with "still in use" formats an empty name, so it never matches and the reconcile ends with
  the error instead of a requeue.
- When pausing fails, `checkVRGConflict` returns a nil result that its caller dereferences; the model aborts the reconcile.
- The comment on the failover window says that only 5, 10 and 15 minutes are checked; the code checks every whole number
  of minutes from 5 to 15.
- The comment on restored labels names two labels; the code keeps three.
- The reported last sync time is the last one in list order. It is the latest if and only if no source before the last
  dated one has a later time.
- Conservation and the claimRef are not safe from every state that the operator can reach: letting a claim go gives up
  the volume if the stand-in is already being deleted, and leaves the claimRef dangling if it names that claim.

## Model

| member | source | states |
|---|---|---|
| `Theorems.RelocationLosesNothing` | internal/controller/finalsync_handler.go:120-229 | In every run of a relocation: when a group claim is restored or its source deleted, the remote copy holds every write the volume has seen, and nothing writes the volume from then on |
| `Theorems.FinalSyncStaysDone` | internal/controller/finalsync_handler.go:81-110 | A final sync that is over stays over, across events, retries, one-by-one source deletions and both reconcilers |
| `Theorems.GateHolds` | internal/controller/secondary_reconciler.go:78-108 | Until the status records the demotion, no source is deleted and no destination written unless every source of the namespace is stamped; after the first such step all remaining ones stay stamped |
| `Theorems.VolumesAreNamed` | internal/volsync/handler.go:905-1171 | In every state the main claim and its stand-in, whichever exist, name the claim's own volume |
| `Theorems.VolumesAreNotShared` | internal/volsync/handler.go:905-1171 | No other claim ever names a volume of the group |
| `Theorems.NoClaimDangles` | internal/volsync/handler.go:960-1008 | Without faults, when stand-ins are plain: after every single write, each group volume's claimRef names an existing claim of its own group |
| `Theorems.SourceAndDestinationExclude` | internal/volsync/handler.go:148-159 | In every state of every run no claim has both a source and a destination |
| `Theorems.OnlyTheFinalSyncUnpauses` | internal/controller/finalsync_handler.go:315-336 | Over all writes and events, a paused source is unpaused only by the write that sets the stand-in as its source and the manual trigger, in a relocation with no application pod on the claim |
| `Theorems.FinalizerGuards` | internal/controller/delete_reconciler.go:39-67 | In every state, a VGR without the operator's finalizer has no source or destination with its label in its namespace |
| `Theorems.NormalOperationIsGood` | internal/controller/volumegroupreplication_controller.go:93-113 | A group in normal operation satisfies the invariant, so the theorems apply to every run from there |
| `Theorems.NormalOperationExists` | internal/controller/finalsync_handler.go:66-75 | There are groups in normal operation whose VRG asks for relocation |
| `Theorems.EveryStateIsGood` | internal/controller/volumegroupreplication_controller.go:58-123 | Every state that a modelled cluster has been through is a state of a legal run and satisfies the invariant |
| `Failures.VolumesAreConserved` | internal/volsync/handler.go:905-1171 | The claim or its stand-in exists in every state of a run in which no held claim is given up while its stand-in is missing or being deleted; with plain stand-ins that is every run, whatever fails |
| `Failures.ConservedIffNeverAbandoned` | internal/volsync/handler.go:905-1171 | Exactly: over any run, a volume's claims are there to stay in all states if and only if no such write is made |
| `Failures.StepPreservesIff` | internal/volsync/handler.go:1067-1094 | One step: it keeps a volume's claims there to stay if and only if it is not such a write |
| `Failures.PreservedIffNoEventsLose` | internal/volsync/handler.go:1067-1094 | There to stay means what it says: no sequence of events can take both claims away, and if the claims are not there to stay some sequence does |
| `Failures.LettingGoPreservesIffStandInStands` | internal/volsync/handler.go:1067-1094 | In every state, a restore that lets a claim go leaves the volume a claim there to stay if and only if the stand-in is not being deleted |
| `Failures.HandingOffPreservesIffStandInStands` | internal/volsync/handler.go:960-1010 | A complete hand-off does so if and only if it keeps the finalizer or the stand-in is not being deleted |
| `Failures.HeldStandInLosesVolume` | internal/volsync/handler.go:1133-1168 | From every group in normal operation, with every hand-off and restore complete: a legal run in which another controller holds the stand-in and both claims vanish |
| `Failures.AnchoredIffNeverUnanchored` | internal/volsync/handler.go:960-1008 | Over any run, a volume's claimRef names a claim there to stay in all states if and only if no write takes that claim away or writes a claimRef that names neither the claim nor its stand-in, or the one of them that is not there to stay |
| `Failures.StepAnchorsIff` | internal/volsync/handler.go:960-1008 | One step: it keeps the claimRef good if and only if it is not such a write |
| `Failures.AnchoredIffNoEventsLose` | internal/volsync/handler.go:960-1008 | A good claimRef is one that no sequence of events can leave without its claim, and only that |
| `Failures.ReferencesGoBadHalfWay` | internal/volsync/handler.go:978-1164 | With plain stand-ins and any faults, a claimRef goes bad in one way only: a hand-off was left after its first write or a restore after its second, nothing has finished either since, and then the claim is let go |
| `Failures.LettingGoDanglesIffReferredTo` | internal/volsync/handler.go:1067-1094 | In every state with a stand-in and a terminating claim, a restore leaves the claimRef on a claim that is gone if and only if it names that claim before |
| `Failures.InterruptedHandOff` | internal/volsync/handler.go:960-1008 | A hand-off cut off leaves such a state if and only if it is cut off after its first write |
| `Failures.InterruptedRestore` | internal/volsync/handler.go:1133-1168 | A restore cut off leaves one if and only if it is cut off after its second write, or is complete while others hold the stand-in |
| `Failures.CutHandOffDangles` | internal/volsync/handler.go:960-1094 | From every group in normal operation: a legal run with a fault after the first write of a hand-off that leaves the claimRef dangling |
| `Failures.CutRestoreDangles` | internal/volsync/handler.go:1067-1164 | From every group in normal operation: a legal run with no hand-off cut off and a fault after the second write of a restore that does |
| `Failures.DeletableExists` | internal/controller/volumegroupreplication_controller.go:58-123 | There are groups in normal operation from which these runs start, with calls that may fail and stand-ins that others may hold |
| `Safety.RunsAreSafe` | internal/controller/volumegroupreplication_controller.go:58-123 | Every state of every legal run satisfies the invariant |
| `Safety.StepKeeps` | internal/volsync/handler.go:905-1171 | Each kind of legal write keeps the invariant |
| `Safety.EventKeeps` | internal/controller/finalsync_handler.go:351-372 | Each event of the environment keeps the invariant and what a reconcile in progress relies on |
| `Controller.VGRReconciler.Operate` | internal/controller/volumegroupreplication_controller.go:58-123 | Any sequence of reconciles and events, with any failures, is a legal run |
| `Controller.VGRReconciler.Reconcile` | internal/controller/volumegroupreplication_controller.go:58-123 | A VGR without the finalizer gets it before anything else. Deleting one: whatever happens meanwhile, only sources, destinations, claims with the VGR's label and the finalizer are written, claims deleted and volumes changed only if the VGR was found secondary; without interference nothing without the label is touched, and without faults the finalizer goes last with every labelled claim discharged as the role requires. As secondary without interference and faults: starts the final sync of every listed claim, waits for terminating claims, or is held up by a mounted claim whose source it pauses; or is one restore pass that turns the claims around when none waits. As primary: every listed claim that is not being deleted is replicated on a schedule that keeps the interval, and nothing else is touched |
| `Controller.VGRReconciler.ReconcileByRole` | internal/controller/volumegroupreplication_controller.go:102-122 | The recorded state changes only to that of the role, and to secondary only with the listed claims as protected, addressed destinations that write them, none lost, and their names recorded; as primary the listed claims are replicated; an unknown role changes nothing |
| `Controller.VGRReconciler.ReconcileAsPrimary` | internal/controller/volumegroupreplication_controller.go:106-122 | Coming back later means that the listed claims are replicated, waiting for a change that a secondary VRG has had all sources paused; without interference and faults it is certain which, and the whole next state is given; also across the second status write |
| `Controller.VGRReconciler.ReconcileAsSecondary` | internal/controller/volumegroupreplication_controller.go:108-122 | The same for the secondary: a recorded demotion, the restore pass and the final sync up to the first claim in use, across the second status write |
| `Controller.VGRReconciler.WriteStatus` | internal/controller/volumegroupreplication_controller.go:118-120 | The status in memory is written exactly if the VGR is still as it was read, and nothing else changes; writing what is there already changes nothing |
| `Controller.VGRReconciler.ReconcileUntilRestored` | internal/controller/secondary_reconciler.go:56-121 | With K claims terminating, K consecutive reconciles end with a claim that has to wait, and the next one leaves no stand-in and every claim that had one back with its volume; it succeeds if the secret exists and no claim is lost, and what it leaves can be reconciled on |
| `Controller.VGRReconciler.Relocate` | internal/controller/secondary_reconciler.go:56-121 | A whole relocation of N claims takes exactly N + 4 reconciles, from the time when the claims are being deleted and no pod mounts them: one starts the final sync, N let the claims go, one brings them back, one makes them destinations, one records the demotion; at the end every claim is back with its volume and is a protected, addressed destination without source |
| `Controller.VGRReconciler.ReconcileReturned` | internal/controller/secondary_reconciler.go:105-121 | A reconcile of a restored group succeeds and leaves every claim protected, without source and written by a destination of the VGR; it records the demotion if all of them have addresses |
| `Progress.LeavingBegins` | internal/controller/finalsync_handler.go:113-160 | Such a group meets the conditions under which the final sync starts for every listed claim in one reconcile |
| `Progress.LeavingExists` | internal/controller/finalsync_handler.go:66-75 | There are such groups, in states that satisfy the invariant |
| `Progress.SyncedIsRestoring` | internal/controller/secondary_reconciler.go:209-234 | When every source has run the final sync, the next reconciles restore the whole group, and every claim of it waits |
| `Convergence.WaitingReconcile` | internal/volsync/handler.go:1067-1094 | A reconcile with a claim waiting ends with that error, lets exactly one claim go, and leaves the rest restorable |
| `Convergence.LastReconcile` | internal/controller/secondary_reconciler.go:242-265 | A reconcile with none waiting leaves no stand-in of the set and every claim back with its volume |
| `Convergence.LastTurnsAround` | internal/controller/secondary_reconciler.go:277-305 | Such a reconcile gives every claim that the selector finds a destination, and records the demotion with all of them demoted when all are addressed |
| `Convergence.GroupIsRestorable` | internal/volsync/handler.go:1061-1065 | In runs without faults with plain stand-ins, any part of the group can be restored |
| `Convergence.GroupIsConcerned` | internal/controller/secondary_reconciler.go:124-145 | In a relocation the reconciles are about the whole group once every terminating claim that the selector finds has a stand-in and it finds no other stand-ins |
| `RoundTrip.HandOffConverges` | internal/volsync/handler.go:960-1010 | A hand-off cut off after any write and repeated ends in the state of one uninterrupted call |
| `RoundTrip.RestoreConverges` | internal/volsync/handler.go:1133-1170 | So does the create branch of a restore |
| `RoundTrip.ThereAndBack` | internal/volsync/handler.go:907-1171 | Terminate, hand off, let go, restore, with the stand-in bound or given finalizers in between: the same cluster again, the same spec and volume, annotations and labels reduced to a fixed projection, and a stand-in held by others still being deleted |
| `Handoff.HandOffStandsIn` | internal/volsync/handler.go:905-1012 | The stand-in has the claim's labels, spec and volume, the annotations that application management reads, and a mark, and nothing else |
| `Handoff.RestoredComesBack` | internal/volsync/handler.go:1095-1171 | The claim comes back with the stand-in's spec and volume, exactly the three labels that are kept, and the annotations without the stand-in's marks |
| `RoundTrip.AnnotationsRoundTrip` | internal/volsync/handler.go:929-939 | Filtering to the stand-in and back, bound in between or not, leaves the surviving annotations |
| `RoundTrip.ReturningIsIdempotent` | internal/volsync/handler.go:1096-1131 | Any number of round trips is one |
| `RoundTrip.PassLetsOneGo` | internal/controller/secondary_reconciler.go:242-265 | One pass over any list lets exactly one waiting claim go, or finds none and restores all that is listed; no claim that is back is touched again |
| `RoundTrip.CoveringPass` | internal/controller/secondary_reconciler.go:242-265 | A pass over a covering list succeeds if and only if no claim is waiting, and then no stand-in is left |
| `RoundTrip.RestoreTakesExactly` | internal/volsync/handler.go:1067-1094 | Any set of K terminating claims with stand-ins takes exactly K waiting passes and one that leaves no stand-in of the set and every claim back with its volume, whatever the lists' order |
| `Names.TextIsInjective` | internal/volsync/handler.go:1041-1045 | Names as the model has them are the names the API server stores |
| `Names.SuffixTestIsConstructorTest` | internal/controller/finalsync_handler.go:231-234 | The suffix test and the trimming are the model's constructor test and destructor |
| `Handler.VSHandler.CreateTemporary` | internal/volsync/handler.go:907-1011 | Every write is legal under interference; without it the state is that after a known number of the three writes, and after all three without faults |
| `Handler.VSHandler.Restore` | internal/volsync/handler.go:1036-1171 | The same for a restore, with its outcome; success means that the claim is back and held, and with plain stand-ins that the stand-in is gone |
| `Handler.VSHandler.HasTemporary` | internal/volsync/handler.go:1014-1032 | True exactly for stand-ins and claims that have one |
| `Handler.VSHandler.IsTerminating` | internal/volsync/handler.go:863-879 | True exactly for claims that exist and are being deleted |
| `Handler.VSHandler.GetVolume` | internal/volsync/handler.go:882-903 | The volume behind a claim, or why there is none |
| `Handler.VSHandler.Protect` | internal/volsync/handler.go:797-827 | The claim carries the finalizer afterwards; a claim being deleted does not accept it; a missing claim is fine |
| `Handler.VSHandler.RemoveFinalizer` | internal/volsync/handler.go:830-860 | The claim is gone or does not carry the finalizer afterwards, other claims are kept, and nothing else is written whatever happens meanwhile |
| `Handler.VSHandler.DeleteSource` | internal/volsync/handler.go:457-481 | Only behind an open gate; the source is gone afterwards and nothing else has changed |
| `Handler.VSHandler.DeleteDestination` | internal/volsync/handler.go:484-508 | The destination is gone afterwards and nothing else has changed |
| `Handler.VSHandler.PutDestination` | internal/volsync/handler.go:244-289 | The destination carries both owner labels, writes the claim of its name, and keeps an address it has |
| `Handler.VSHandler.ReconcileRD` | internal/volsync/handler.go:86-180 | A result means: protected claim, no source, an addressed destination of the VGR that writes this claim, and a claim that was not being deleted when its reconcile began. Without interference and faults, a result is returned if and only if the claim can receive and an address is assigned, a claim that can receive has its destination also without address, a terminating one is handed off, a missing claim or secret is an error, and the whole next state is given |
| `Handler.VSHandler.EnsureLabels` | internal/volsync/handler.go:197-241 | The claim carries both owner labels with the VGR's name and namespace afterwards |
| `Handler.VSHandler.PutSource` | internal/volsync/handler.go:369-420 | The source reads the claim for the VGR on a schedule that keeps the interval, whatever happens meanwhile, and stays paused if it was; an interval without number or unit writes nothing |
| `Handler.VSHandler.ReconcileRS` | internal/volsync/handler.go:292-366 | A result means: no destination, and a source that reads the claim for the VGR on a schedule that keeps the interval. None means a stand-in or a claim that was being deleted. Without interference, a result means that the source, the claim's labels and its finalizer were written, the destination is gone, and nothing else was touched; and without faults, exactly when it is returned, when it fails, and the whole next state |
| `Replication.TurnedIntoSourceMeans` | internal/volsync/handler.go:334-420 | For every interval that has a schedule: the source keeps its pause, its sync time and foreign labels, reads the claim and keeps the interval; the claim gets the owner labels and the finalizer and loses nothing; its destination is gone; everything else is as it was |
| `Demotion.ReceivedMeans` | internal/volsync/handler.go:142-165 | For every claim that can receive: it is protected, has no source, and its destination writes it for the VGR and keeps its address and foreign labels |
| `Replication.DestinationsAreStable` | internal/volsync/handler.go:142-165 | Reconciling a destination again changes nothing |
| `Replication.SourcesAreStable` | internal/volsync/handler.go:334-361 | Reconciling a source again changes nothing |
| `Replication.DemotedStays` | internal/controller/secondary_reconciler.go:277-305 | What the loop has done for one claim survives the handling of the others |
| `FinalSyncs.FinalSyncHandler.ShouldRunFinalSync` | internal/controller/finalsync_handler.go:48-78 | True only if the VRG asks for relocation and the status does not record it; exactly then if the VRG is readable |
| `FinalSyncs.FinalSyncHandler.AreAllRSFinalSyncsComplete` | internal/controller/finalsync_handler.go:81-110 | True exactly if all sources of the namespace are stamped, and then the gate is open |
| `FinalSyncs.FinalSyncHandler.IsPVCInUse` | internal/controller/finalsync_handler.go:352-372 | True exactly if a pod mounts the claim; only a VolSync pod that does is deleted, and one is unless a pod of another kind mounts the claim |
| `FinalSyncs.FinalSyncHandler.PauseReplicationSource` | internal/controller/finalsync_handler.go:271-312 | The source is paused and its job gone, everything else of it and all other sources are kept; one that was paused is left alone |
| `FinalSyncs.FinalSyncHandler.TriggerFinalSyncForPVC` | internal/controller/finalsync_handler.go:315-349 | The source reads the stand-in, unpaused, on the manual trigger, and keeps everything else; complete means stamped |
| `FinalSyncs.FinalSyncHandler.HandleLostTemporaryPVC` | internal/controller/finalsync_handler.go:237-255 | Only the bind mark of a lost stand-in is removed, and without interference a success has removed it |
| `FinalSyncs.FinalSyncHandler.CreateStandIns` | internal/controller/finalsync_handler.go:133-175 | Counts the listed claims and the terminating ones; equal counts mean that all are terminating and, unless a stand-in was already going, have one; without interference only stand-ins are added, one for each terminating claim, lost ones are told to bind again, and it succeeds without faults if the terminating claims are bound and no stand-in is lost |
| `FinalSyncs.FinalSyncHandler.SyncOnce` | internal/controller/finalsync_handler.go:183-221 | The source is triggered only with no pod on the claim. Failing because the claim is in use means, whatever happens meanwhile, that its source is paused; without interference exactly its source was paused and its job stopped, and at most a VolSync pod on the claim removed; and without faults it fails so whenever a pod mounts a claim that has a stand-in and a source |
| `FinalSyncs.FinalSyncHandler.SyncAll` | internal/controller/finalsync_handler.go:177-222 | The completed count and the names in sync add up to the listed claims, unless a stand-in that was going has vanished; without interference exactly the listed sources are triggered, or, if a pod mounts one of the claims, those before the first such claim, whose own source is paused and whose name the error bears; it succeeds without faults if no pod mounts a claim and all sources exist |
| `FinalSyncs.FinalSyncHandler.ProcessFinalSync` | internal/controller/finalsync_handler.go:120-229 | Complete means all stamped; the account adds up if no stand-in is going; without interference the names are exactly the unstamped ones, all terminating and unmounted. Without faults it waits, with stand-ins for the terminating claims, until all are terminating; is then held up exactly by the first mounted claim, whose source is paused; and otherwise triggers every source |
| `FinalSyncs.AccountedClaim` | internal/controller/finalsync_handler.go:133-228 | An accounted claim is terminating and unmounted, shares its volume with its stand-in, and its source is unpaused on the stand-in with the manual trigger |
| `FinalSyncs.FinalSyncHandler.UpdateFinalSyncStatus` | internal/controller/finalsync_handler.go:375-394 | Combined with the account: the reconcile goes on only if every listed source is stamped, and without interference exactly then |
| `SyncSteps.FinishedIffAllStamped` | internal/controller/finalsync_handler.go:224-228 | No name is left over if and only if every source is stamped |
| `SecondarySide.SecondaryReconciler.GetPVCList` | internal/controller/secondary_reconciler.go:124-145 | The list is the selector's, each claim once, and covers the group |
| `SecondarySide.SecondaryReconciler.HandleFinalSync` | internal/controller/secondary_reconciler.go:188-234 | Going on means that every group claim is done; no source or destination comes or goes; when it comes back later and when it goes on at once |
| `SecondarySide.SecondaryReconciler.RestoreTemporaryPVCs` | internal/controller/secondary_reconciler.go:242-265 | Is the restore pass of the exact bound; success with plain stand-ins leaves no stand-in of the list |
| `SecondarySide.SecondaryReconciler.IsFinalSyncComplete` | internal/controller/secondary_reconciler.go:236-239 | True opens the gate |
| `SecondarySide.SecondaryReconciler.ReachGate` | internal/controller/secondary_reconciler.go:78-103 | Before the gate no source or destination comes or goes, and passing it means that it is open; without interference and faults it starts the final sync and comes back later, or, with the final sync complete or not asked for, is exactly one restore pass |
| `SecondarySide.SecondaryReconciler.HandleLostPVC` | internal/controller/secondary_reconciler.go:311-329 | Only the bind mark is removed |
| `SecondarySide.SecondaryReconciler.ReconcileReplicationDestinations` | internal/controller/secondary_reconciler.go:268-308 | The names are those of protected claims with an addressed destination that writes them and no source, each of which stood in some state during the call; all listed names in order if and only if all are ready; without interference none is being deleted afterwards, a lost claim is told to bind again and ends it, and without faults the names are exactly those of the claims that can receive and are addressed, in order |
| `SecondarySide.SecondaryReconciler.UpdateStatus` | internal/controller/secondary_reconciler.go:421-481 | The state becomes secondary only if all are ready, and stays secondary |
| `SecondarySide.SecondaryReconciler.Demote` | internal/controller/secondary_reconciler.go:105-121 | Behind the gate: the state becomes secondary only with every listed claim demoted and standing; without interference and faults, if no listed claim is being deleted, claims and volumes are kept, every claim that can receive gets a destination, and the demotion is recorded if all are addressed and none lost |
| `SecondarySide.SecondaryReconciler.Reconcile` | internal/controller/secondary_reconciler.go:56-121 | The demotion is justified: every claim the selector found is no stand-in and not lost, is protected, has an addressed destination and no source, was not being deleted in some state during the reconcile, and without interference is not; the protected list is the listed names; with the gate closed no source or destination comes or goes; one restore pass without interference and faults |
| `Demotion.StampedListMeansAllDone` | internal/controller/secondary_reconciler.go:209-233 | A complete final sync of the list covers the whole group |
| `Demotion.DemotionIsJustified` | internal/controller/secondary_reconciler.go:433-438 | When every listed claim is demoted, every group claim has had its final sync |
| `Demotion.OthersAreIndependent` | internal/controller/secondary_reconciler.go:277-305 | Whether one claim can receive does not depend on the reconcile of another |
| `PrimarySide.PrimaryReconciler.CheckVRGConflict` | internal/controller/primary_reconciler.go:198-227 | Goes on exactly if no VRG of the namespace is secondary, never under relocation; otherwise success means that all sources are paused, and without interference that in addition exactly their jobs and the VolSync pods of the namespace are gone |
| `PrimarySide.PrimaryReconciler.PauseListed` | internal/controller/primary_reconciler.go:237-265 | One source is paused and its job gone, all others are kept |
| `PrimarySide.PrimaryReconciler.PauseSources` | internal/controller/primary_reconciler.go:230-266 | Every source of the namespace is paused, none is added, removed or unpaused; without interference exactly the jobs of those that ran are gone, and without faults it succeeds |
| `PrimarySide.PrimaryReconciler.DeleteVolSyncPods` | internal/controller/primary_reconciler.go:268-282 | Only VolSync pods of the namespace are gone, and all of them on success |
| `PrimarySide.PrimaryReconciler.PauseAllReplicationSources` | internal/controller/primary_reconciler.go:230-285 | Both of these |
| `PrimarySide.PrimaryReconciler.ReconcileReplicationSources` | internal/controller/primary_reconciler.go:319-355 | Whatever happens meanwhile: no source is unpaused or removed; on success the names are those of listed claims, in list order, that have a source on a schedule that keeps the interval and no destination, and every other listed claim that VolSync did not create was being deleted in some state during the call. Without interference they are exactly the claims not being deleted, they became sources and nothing else was touched, and the sync time is the last known in list order, which is the latest if and only if no source before the last dated one has a later time; without faults it succeeds if the secrets exist and the interval has a schedule |
| `PrimarySide.LastSyncIsLatestIff` | internal/controller/primary_reconciler.go:347-350 | For all claims and sources: the reported time is the latest if and only if no source before the last dated one has a later time |
| `PrimarySide.LastSyncIsNotTheLatest` | internal/controller/primary_reconciler.go:347-350 | An input on which that time is not the latest |
| `PrimarySide.PrimaryReconciler.UpdateStatus` | internal/controller/primary_reconciler.go:413-455 | The status records the promotion, the names and the time, in memory and, on success, in the cluster |
| `PrimarySide.PrimaryReconciler.Reconcile` | internal/controller/primary_reconciler.go:61-141 | Coming back later means that the listed claims of the selector and the owner label are replicated and their names recorded; without interference every listed claim that is not being deleted and that VolSync did not create became a source, and nothing else was touched. While a VRG is secondary no source is created and each success leaves all of them paused; no reconcile unpauses a source |
| `Handler.VSHandler.DeleteRSByLabel` | internal/volsync/handler.go:594-611 | No owned source is left, and only owned ones are gone, also after a failure |
| `Handler.VSHandler.DeleteRDByLabel` | internal/volsync/handler.go:614-631 | The same for destinations |
| `Handler.VSHandler.DiscardClaim` | internal/volsync/handler.go:643-675 | Whatever happens meanwhile, only this claim and its volume are written; without interference only the claim and the volume's reclaim policy change, a success means that the claim is gone or being deleted and its volume not retained, and without faults it does not carry the finalizer |
| `Handler.VSHandler.DeletePVCsByLabel` | internal/volsync/handler.go:634-679 | Whatever happens meanwhile, only claims listed with the label and their volumes are written; without interference nothing else has changed at any point of failure, and without faults all of them are dismissed |
| `Handler.VSHandler.RemoveFinalizersFromPVCsByLabel` | internal/volsync/handler.go:683-702 | Whatever happens meanwhile, only claims listed with the label are written, no deletion is requested and no volume is written; labelled claims lose the finalizer |
| `DeletionSide.DeleteReconciler.HandlePVCDeletion` | internal/controller/delete_reconciler.go:92-97 | Deletes as secondary; otherwise only releases, which the trace shows under any interference |
| `DeletionSide.DeleteReconciler.Reconcile` | internal/controller/delete_reconciler.go:39-67 | The finalizer goes only when nothing owned is left; under any interference only claims listed with the label and, as secondary, their volumes are written, and a primary deletes no claim and writes no volume; without interference objects without the label stay as they were at any point of failure, and a success has given up every claim as secondary or released it; a run without faults completes from any state |
| `Schedule.CronTextParsesBack` | internal/volsync/handler.go:1178-1228 | The step of the cron text is the number of the interval text, capped at 28 for days |
| `Schedule.CronSpecKeeps` | internal/volsync/handler.go:747-757 | For every interval text: its schedule runs on the step of the number and unit, capped at 28 days, and never less often than the interval on any calendar; every five minutes for an empty or zero interval; a well-formed one has a schedule, one without number or unit has none |
| `Schedule.ConsecutiveRunsAreClose` | internal/volsync/handler.go:747-757 | Such a schedule's consecutive fire times are at most the interval apart |
| `Schedule.CronRefinesInterval` | internal/volsync/handler.go:1206-1221 | Consecutive fire times of the cron text are at most the interval apart, on every calendar |
| `Schedule.MinutesAreExactIffTheyDivideTheHour` | internal/volsync/handler.go:1206-1208 | Minute schedules keep the interval exactly if and only if it divides 60 |
| `Schedule.DurationIsExactIffItFits` | internal/controller/primary_reconciler.go:459-472 | The duration is exact if and only if the minutes are at most 153722867 |
| `Schedule.WindowIsRemainder` | internal/controller/primary_reconciler.go:482-511 | The window is one minute <= now mod interval < interval minus one minute |
| `Schedule.WindowIsPeriodic` | internal/controller/primary_reconciler.go:500-504 | The window repeats with the interval |
| `Schedule.FifthPollIsAdmitted` | internal/controller/primary_reconciler.go:178-186 | Polling every 30 seconds is admitted by the fifth check from any instant, and four may not be enough |
| `Schedule.WindowAvoidsCronIffItDividesTheHour` | internal/controller/primary_reconciler.go:482-511 | The window of an interval text keeps a minute clear of the fire times of the same text's cron at every instant if and only if the interval divides 60 |

## Left out

- The manager, watches, the provisioner check and the lookup of the VGR's class: wiring without an invariant.
- `getConfiguration` and `getPVCConfiguration`: defaults; the secret name and the interval are parameters.
- Conditions (among them the one that `UpdateFinalSyncStatus` sets), messages, observed generations and events: single-branch facts. `setCondition` is not part of this model.
- The ServiceExport of a destination, addresses and key secrets: calls into other systems; the secret is whether it exists.
- What VolSync writes on the destination side, and its jobs beyond their deletion: a sync is one atomic copy to the remote version.
- Stale caches and resource versions: a read is of the current state, and an update conflicts if the value read has changed.
- Selectors with expressions: a selector is a set of required labels.
- `checkFailoverSafety`: its call is commented out, so only its window arithmetic is modelled.
- `updatePVCAnnotations`, `addOwnerReference`, `generateVolSyncReplicationSecret`, `RollbackHandler`: not called.
- Interval texts with other blanks than spaces and tabs before the number: not modelled.
- `Schedule.CronSpecKeeps`: a number with a sign, with blanks before it or with something after it is copied into the cron text as the program does; nothing is said about the schedule it gives.
- `FinalSyncs.FinalSyncHandler.ProcessFinalSync`: that each listed claim is terminating and unmounted, and that the names are exactly the unstamped ones, is stated without interference, because a user or VolSync may change it between two calls.
- `SecondarySide.SecondaryReconciler.Reconcile`: under interference each listed claim stood in some state during the reconcile, not necessarily all of them in one state or at the end, because a user may delete a claim at any time.
- `DeletionSide.DeleteReconciler.Reconcile`: under interference it is said which objects the operator writes, not that others are unchanged, because their users may change them meanwhile.
- `Theorems.NoClaimDangles`: it is stated without faults and with plain stand-ins, because `Failures.CutHandOffDangles`, `Failures.CutRestoreDangles` and `Failures.HeldStandInLosesVolume` show that either can break it; `Failures.AnchoredIffNeverUnanchored` is the statement without both.
- `Controller.VGRReconciler.ReconcileAsPrimary`, `Controller.VGRReconciler.ReconcileAsSecondary`: the status write at the end repeats the reconciler's own unless that has failed; what it makes good then is not stated.
- `Controller.VGRReconciler.ReconcileUntilRestored`: it is about stand-ins that nobody else holds; a held one only goes when its holder lets it go.
- `Controller.VGRReconciler.Relocate`: the number of reconciles is stated for a group whose sources are the only ones of the namespace and whose claims are the only ones that the selector finds, without interference and faults and with plain stand-ins; with any of these missing a reconcile may have to be repeated any number of times.
