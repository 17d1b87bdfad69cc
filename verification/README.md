# Verified model of the broker

The broker mirrors objects of a source cluster into a target cluster and keeps the two in step.
Each kind of object has a reconciler, a small program of API calls: read the source object, find
the target namespace, ensure a finalizer, create or patch the target, or delete the target and then
remove the finalizer.  Users and controllers of both clusters act between any two of these calls.

This project models those programs and the clusters they act on, and proves what they guarantee
together.

* `Objects`, `Merge`, `Sync`: the objects, the merge of partially resolved lists, and what one
  round of applying a target writes.  `Appliers` holds the same as the program does it, mutation by
  mutation, with the builder that forbids partial creation.
* `Fields`: target specs field by field, what a round writes into a field and what a merge patch
  makes of it.
* `Protocol`: both clusters, the watch queues between cluster and cache, the versions a target
  cache may still hold, and one program counter per key.  `ProtocolInvariant` has the invariant
  that every step keeps, `ProtocolTheorems`, `Creation`, `NoLoss`, `Versions` and `Skipped` what
  follows for every reachable state and every run, `Counterexamples` the runs at whose end a property one might
  expect fails, `LateStatus` a run that meets what `NoLoss` asks for, `Reconcilers` the reconcilers
  as programs, call by call.
* `Passes`, `Drain`: whole passes, and how deletion comes to an end among everybody else.
* `Usage`, `UsageQueries`: which objects the broker needs, as a specification and as the queries that
  find out.  `Frozen`, `Convergence`, `Sweeps`: what passes over
  frozen sources converge to, however their calls interleave.  `Recovery`: that any run gets to
  where this applies, once the sources have come to rest.
* `OwnerReferences`, `ProxyVolumes`, `AccessSecrets`, `Dependents`, `Wakeups`, `Pools`: the
  remaining mechanisms, each with its own programs and specification.

`dafny verify dfyconfig.toml` checks everything.

## How to read it

A cached read returns the head of an object's watch queue, the cluster holds its last element; a
write of the broker to a source object empties the queue down to that write, so the broker never
reads anything older than its own last write.  Target objects are read through a cache too, which
returns the present version, any earlier one, or none; the lists of target namespaces are live.
Passes on one key never overlap.  A patch carries the fields that the mutations changed on the
version that was read: lists as a whole, references field by field, so that name and uid may come
from different versions (`Fields.MergePatchExactly`).  Deleting a target object is by name, as the reconcilers do it.

What the broker reads of a source object, its status included, is its `Spec`; `Sync.SameReferences`
says which part of it are the blocking references.

Users and controllers of the target cluster may mark and finish target objects and target
namespaces, edit targets and create objects of their own.  What they do not do is write the
broker's labels, finalizers and owner annotations.

Library calls are taken at their documented contracts: `PatchEnsureFinalizer` returns true when it
added the finalizer, and adding one to a marked object fails; `DeleteIfExists` returns false only
when the object was not found; `CreateOrPatch` gets, mutates, then creates or patches; a name
generated for a namespace or a secret has never been used before; `quotav1.Add` is a key-wise sum
over the union of keys.

Programs that make several API calls call `Interfere` between them.  Its body is the quiet case;
callers rely on its contract alone, which allows everybody else to do anything.

Where the code and the stated intent part, the model follows the code:

* A network interface, secret, network, virtual IP or machine whose target namespace has gone keeps
  its finalizer; only volumes let go (`Drain.ReleasedExactly`).  `Counterexamples.HeldWithoutNamespace`
  is a run that ends so: a secret deleted together with its namespace.
* The assignment of a target namespace is constant only while nobody but the broker deletes target
  namespaces (`ProtocolTheorems.NamespaceAssignmentConstant`, `Counterexamples.AssignmentEndedByOthers`);
  it ends exactly when the target cluster finishes one (`ProtocolTheorems.AssignmentEndsExactly`).
* A source that is deleted and created again is refused while the target cache still holds the target
  of the earlier one (`Counterexamples.StaleReadRefused`), and never otherwise
  (`ProtocolTheorems.RefusedExactly`, `ProtocolTheorems.SelfRecognition`).
* A machine that is moved out of the pool is left alone, with its target and its finalizer; passes
  delete what is unwanted of all other kinds (`Frozen.IsSkipped`, `Frozen.IsUnwanted`).
* A machine that is moved out of the pool wakes nobody (`Wakeups.PoolChangeSleeps`); all other
  events do (`Wakeups.MachineWakeUpExactly`).
* Live secret references are not restricted to the namespace of the secret
  (`Usage.LiveCrossesNamespaces`).
* The second query for a namespace reads the cache like the first one and has lost the restriction to
  the pool (broker/dependents/builder/dependent.go:173-187): any machine makes its namespace used.
* A live query can miss a volume whose claim moves to another machine while it runs
  (`Dependents.MovedClaimIsMissed`), and nothing else that was a referent throughout
  (`Dependents.LapsesExactly`).
* An access secret keeps foreign data when somebody changed it between the list and the patch and
  what was read was up to date already (`AccessSecrets.ReturnedIsTheSecret` says exactly when,
  `AccessSecrets.ReturnedIsForeign` is a run).
* `broker/controllers/core/namespace_controller.go:161` removes the finalizer of an unused namespace
  through the target client, so the source keeps it; the pass changes nothing in the model.

## Model

| member | source | states |
|---|---|---|
| `Merge.RoundMembers` | broker/controllers/compute/machine_controller.go:300-345 | After one round the list holds exactly the images resolved in it and the old entries of names that did not resolve |
| `Merge.RunMembers` | broker/controllers/compute/machine_controller.go:300-345 | After any rounds an entry is there iff it is the image of the latest round in which its name resolved, or an initial entry of a name that was always listed and never resolved |
| `Merge.RunUnique` | broker/controllers/compute/machine_controller.go:393-434 | Over any rounds names stay unique and within the names of the last source list |
| `Merge.RoundIdempotent` | broker/controllers/compute/machine_controller.go:300-345 | Repeating a round changes nothing, order included |
| `Merge.RoundFull` | broker/controllers/compute/machine_controller.go:334-343 | A fully resolved round leaves exactly the source list in its order, whatever was there |
| `Merge.RoundCovers` | broker/controllers/compute/machine_controller.go:301-304 | No source name that has an entry ever loses it |
| `Merge.KeepUnhandled` | broker/controllers/compute/machine_controller.go:335-341 | The loop over the existing entries keeps exactly the unhandled ones in order |
| `Appliers.CompositeMutationBuilder.Mutate` | broker/sync/sync.go:35-45 | Refuses exactly a new object in a partial round; otherwise runs all mutations in order |
| `Appliers.CompositeMutationBuilder.Add` | broker/sync/sync.go:28-31 | The new mutation runs after all earlier ones |
| `Appliers.RegisterImagePullSecretMutation` | broker/controllers/compute/machine_controller.go:190-216 | Clears, sets or leaves the reference; partial iff it is set and unresolved |
| `Appliers.RegisterIgnitionMutation` | broker/controllers/compute/machine_controller.go:218-247 | The same for the ignition secret, with the key of the source |
| `Appliers.FindStatus` | broker/controllers/compute/machine_controller.go:249-256 | True iff the status found first under the name has the phase bound; later entries of the name do not count |
| `Appliers.TargetVolumeSource` | broker/controllers/compute/machine_controller.go:266-298 | Empty disks resolve at once, others iff the first status of the entry is bound and the volume has a target; an unknown source is an error |
| `Appliers.RegisterVolumesMutation` | broker/controllers/compute/machine_controller.go:300-345 | The loop, the flag and the registered closure amount to one merge round; fails iff a source is unknown |
| `Appliers.TargetNicSource` | broker/controllers/compute/machine_controller.go:364-391 | The same for a network interface entry |
| `Appliers.RegisterNetworkInterfacesMutation` | broker/controllers/compute/machine_controller.go:393-434 | One merge round over the network interfaces |
| `Appliers.RegisterMachineDefaultMutation` | broker/controllers/compute/machine_controller.go:436-448 | Copies what is copied; sets the target pool only if it is unset |
| `Appliers.ApplyMachineTarget` | broker/controllers/compute/machine_controller.go:450-488 | Error, refused partial creation, or the machine round, each exactly when |
| `Appliers.RegisterNetworkMutation` | broker/controllers/networking/networkinterface_controller.go:135-153 | An unsynced network blocks and leaves the old reference |
| `Appliers.RegisterMachineMutation` | broker/controllers/networking/networkinterface_controller.go:155-186 | The reference is the target found for the machine that the source names, and absent if none was found; it never blocks |
| `Appliers.RegisterVirtualIPMutation` | broker/controllers/networking/networkinterface_controller.go:188-212 | An unsynced virtual IP blocks and leaves the old reference |
| `Appliers.RegisterNicDefaultMutation` | broker/controllers/networking/networkinterface_controller.go:214-235 | Addresses and their families are copied, one family per address, only when there is one per family asked for, otherwise the round is partial |
| `Appliers.ApplyNicTarget` | broker/controllers/networking/networkinterface_controller.go:268-304 | Refused partial creation or the network interface round, exactly when |
| `Appliers.ApplyVipTarget` | broker/controllers/networking/virtualip_controller.go:128-168 | The reference is the target found for the network interface that the source names, and absent if none was found; no round is ever refused |
| `Appliers.RegisterVolumeSecretMutation` | broker/controllers/storage/volume.go:167-189 | Clears, sets or leaves the pull secret; partial iff it is set and unresolved |
| `Appliers.RegisterClaimMutation` | broker/controllers/storage/volume.go:191-228 | The claim is the target found for the machine that the source names, and absent if none was found; with unclaimable targets it is dropped and the target marked |
| `Appliers.ApplyVolumeTarget` | broker/controllers/storage/volume.go:243-279 | Refused partial creation or the volume round, exactly when |
| `Appliers.Render` | broker/client/client.go:85-95 | For any kind, what the mutate function makes of a new or an existing target |
| `Sync.PartialExactly` | broker/controllers/compute/machine_controller.go:450-488 | A round is partial iff a blocking peer is unresolved or the source status is not ready: an entry whose first status is not bound, or addresses that are not one per family |
| `Sync.UnboundIsPartial` | broker/controllers/compute/machine_controller.go:272-276 | An entry that is no empty disk and whose first status is not bound makes the round partial, whatever has a target |
| `Sync.LookupsInTurn` | broker/controllers/compute/machine_controller.go:450-488 | Peers are looked up in the order of the mutations: secrets before volumes before network interfaces, networks before machines before virtual IPs |
| `Fields.PeersExactly` | broker/controllers/compute/machine_controller.go:190-434 | The peers of a round are what the spec names, by reference or as generated for an entry, in the namespace of the object, and no others |
| `Fields.UidRefExactly` | broker/controllers/networking/networkinterface_controller.go:155-186 | After a round a reference by uid is r iff r is the target found for the peer that the source names; without one there is none, for network interfaces, virtual IPs and volumes |
| `Fields.PoolExactly` | broker/controllers/compute/machine_controller.go:436-448 | A round sets the pool to the configured one where there is none, and else leaves it; it makes a volume unclaimable iff configured, and never claimable |
| `Fields.MergePatchExactly` | broker/client/client.go:85-95 | For every field: changed by the round, it has the new value in the patched object; left as read, it has the live one, however old the version read; half a reference sent onto none leaves the other half empty |
| `Fields.FieldsDetermine` | broker/client/client.go:85-95 | The fields are all there is of a target spec |
| `Sync.FullRoundIsImage` | broker/controllers/compute/machine_controller.go:190-488 | A round in which everything resolves writes the image of the source, whatever was there |
| `Sync.ImageIsFixpoint` | broker/controllers/compute/machine_controller.go:190-488 | On an image the same round changes nothing |
| `Sync.ApplyIdempotent` | broker/controllers/compute/machine_controller.go:450-488 | Repeating any round with the same answers, however partial, changes nothing |
| `Sync.CreationIsIntact` | broker/sync/sync.go:35-45 | What a round that is not partial writes has every blocking reference |
| `Sync.NoLossAfterCreation` | broker/controllers/compute/machine_controller.go:301-304 | For the mutations alone: what was created from a spec keeps every blocking reference through any later partial rounds, with whatever status and best effort references the source has in each |
| `NoLoss.NoLossInRuns` | broker/controllers/compute/machine_controller.go:272-304 | In every run in which nobody else edits the blocking references of the source or of its target, a target has every one of them whenever it is there, whatever becomes of the status and however stale the reads |
| `NoLoss.NoLossFrom` | broker/controllers/compute/machine_controller.go:272-304 | The same from any state in which every version so far has them |
| `LateStatus.LateStatusHasTarget` | broker/controllers/networking/networkinterface_controller.go:214-235 | A run that meets these hypotheses for an object that is not ready when it is created, and ends with its target |
| `ProtocolInvariant.StepKeeps` | broker/controllers/core/secret_controller.go:71-164 | Every step of any pass, of users and of both clusters keeps the invariant, stale target reads and foreign deletions of target namespaces included |
| `ProtocolInvariant.ListSingleExact` | broker/client/client.go:29-44 | The live list by label finds the one namespace of the uid or that there is none, and is never refused |
| `ProtocolInvariant.ListSingleRejects` | client/client.go:43-78 | In any state at all it finds one iff that is the only one of the label and controlled by the uid |
| `ProtocolTheorems.NoOrphans` | broker/controllers/core/secret_controller.go:71-164 | In every reachable state a controlled target has its source object, of that uid, holding the finalizer |
| `ProtocolTheorems.NamespaceHeld` | broker/controllers/core/namespace_controller.go:136-197 | An existing target namespace implies a source namespace of its uid that holds the finalizer |
| `ProtocolTheorems.NamespaceMappingInjective` | docs/concepts/broker-namespace.md:21-29 | Target namespaces, source uids and source names correspond one to one |
| `ProtocolTheorems.AssignmentEndsExactly` | docs/concepts/broker-namespace.md:28-29 | The assignment of a target namespace ends iff the target cluster finishes that namespace, marked and empty; no pass and no other event ends it |
| `ProtocolTheorems.NamespaceAssignmentConstant` | docs/concepts/broker-namespace.md:28-29 | In every continuation in which nobody but the broker marks it, the target namespace stays the same until the source namespace is deleted |
| `Counterexamples.AssignmentEndedByOthers` | docs/concepts/broker-namespace.md:28-29 | A run in which somebody else marks it and the source namespace, not deleted, loses it |
| `ProtocolTheorems.NamespaceLookupNeverRejected` | broker/controllers/core/namespace_controller.go:200-224 | The lookup never finds two or a foreign one; not found iff there is none |
| `ProtocolTheorems.RefusedExactly` | broker/client/client.go:72-83 | With only the broker writing a write is refused iff what was read carries the uid of an earlier source object of the same key, and that target is not in the cluster any more |
| `Counterexamples.StaleReadRefused` | broker/cluster/cluster.go:59-68 | A reachable state in which a recreated source is refused because the target cache lags behind |
| `ProtocolTheorems.SelfRecognition` | broker/client/client.go:72-95 | With only the broker writing and an up-to-date read no write is refused, also for recreated sources |
| `ProtocolTheorems.WriteLeavesControlled` | broker/client/client.go:72-95 | Whatever was read, what is in place after a write is controlled by the source uid of the pass |
| `Creation.CreatedOnlyComplete` | broker/sync/sync.go:35-45 | A controlled target comes into being only in a write whose round saw the status ready and found a target, present or past, of every blocking peer, and names them all |
| `Creation.UnboundNotCreated` | broker/controllers/compute/machine_controller.go:364-370 | No step creates the target of a machine from a version that lists an unbound volume or network interface |
| `Creation.PeersHadTargets` | broker/controllers/compute/machine_controller.go:490-515 | What a round has found was there: at some state of the run the peer had a target of that uid |
| `Creation.FoundInThisPass` | broker/controllers/compute/machine_controller.go:490-515 | With an up-to-date target cache it was there at some state of that very pass |
| `Creation.LookupNoted` | broker/controllers/networking/networkinterface_controller.go:155-186 | After its lookup a peer is found iff this lookup found it; answers about other peers stay |
| `Creation.LookupFailsExactly` | broker/controllers/compute/machine_controller.go:490-515 | The lookup of a peer fails iff the peer is a machine that the cache has outside the pool |
| `Creation.OutsidePoolStops` | broker/controllers/networking/networkinterface_controller.go:161-170 | A round that comes to a machine outside the pool ends with nothing written, so the reference to it is not cleared |
| `Versions.WrittenRefsPresent` | broker/controllers/networking/networkinterface_controller.go:172-175 | In every run, whatever the reads: when a write changes the uid of a reference, the peer that the source names had a target of that uid at some state; and name and uid belong together on creation and when the present reference was read |
| `Versions.NoDanglingRefs` | broker/controllers/storage/volume.go:214-217 | With nobody else editing and an up-to-date target cache, every reference by uid in every version of a controlled target carries the uid of a target which the object of that name in its namespace had at some state |
| `Versions.StepKeepsField` | broker/client/client.go:85-95 | A write keeps in the live target every field its round left as read, however stale the read |
| `Versions.EditsSurvive` | broker/client/client.go:85-95 | So over any run what the target cluster has put into a field stays until a round sends the field or somebody there changes it |
| `Versions.PoolSentExactly` | broker/controllers/storage/volume.go:230-241 | A write sends the pool iff one is configured and the version read had none |
| `Versions.PoolSurvives` | broker/controllers/compute/machine_controller.go:436-448 | Without a configured target pool the pool given to a target by the target cluster survives every run of writes with stale reads |
| `Versions.AllAsConfigured` | broker/controllers/storage/volume.go:191-241 | With nobody else editing, every version of every controlled target has the configured pool, or none, and is unclaimable iff configured |
| `ProtocolTheorems.AbsentUntilReleased` | broker/controllers/core/secret_controller.go:101-121 | Between seeing the target gone and removing the finalizer nothing recreates it |
| `ProtocolTheorems.FinalizerDroppedSafely` | broker/controllers/compute/machine_controller.go:97-135 | Whatever step drops the finalizer is the last of a delete pass on the object and leaves no target anywhere |
| `ProtocolTheorems.MarkedGainsNone` | broker/controllers/core/secret_controller.go:124-150 | No step gives the finalizer to an object that is being deleted without it |
| `Reconcilers.Broker.Reconcile` | broker/controllers/core/secret_controller.go:53-61 | One pass is a run of the protocol whatever interferes, with no calls on the key but its own; if nothing does it is exactly `FullPass` for the answer its queries give |
| `Reconcilers.ValidIsReachable` | broker/controllers/core/secret_controller.go:53-61 | Whatever calls have been made, the clusters are in a reachable state of the protocol |
| `Reconcilers.Broker.ReconcileDependent` | broker/controllers/networking/networkinterface_controller.go:81-93 | Deleted or unused goes to deletion, used to reconciliation |
| `Reconcilers.Broker.ReconcileMachine` | broker/controllers/compute/machine_controller.go:85-95 | Machines outside the pool are skipped, also when they are being deleted |
| `Skipped.SkippedForGood` | broker/controllers/compute/machine_controller.go:85-95 | While nobody moves a machine into the pool, no call of its passes changes anything in the clusters, at any point of any run, also when it is being deleted with a finalizer and a target |
| `Reconcilers.Broker.DeleteObjectTarget` | broker/controllers/core/secret_controller.go:87-122 | Deletes by name, removes the finalizer only when the target was not there |
| `Reconcilers.Broker.ReconcileTarget` | broker/controllers/networking/networkinterface_controller.go:237-266 | Namespace, finalizer, then the write; volumes ensure the finalizer first |
| `Reconcilers.Broker.QueryWanted` | api/networking/controller/controller.go:166-174 | The answer is that of the cached queries on the state it began in or of the live ones on the state it ended in; a no leaves no reason in the latter |
| `Reconcilers.InUseExactly` | api/networking/controller/controller.go:64-72 | A yes has a reason in what one of the two queries saw, a no leaves none in the source cluster at the second |
| `Reconcilers.Broker.Target` | broker/controllers/compute/machine_controller.go:490-515 | A lookup reads the source from the cache, lists its target namespace and reads the target from a cache that may lag behind |
| `Reconcilers.Broker.LookupPeers` | broker/controllers/networking/networkinterface_controller.go:268-290 | The lookups of a round in the order of the mutations, with anything in between, up to the first error |
| `Reconcilers.Broker.ApplyTarget` | broker/client/client.go:85-95 | Peer lookups, get, then create or patch, with anything in between |
| `Reconcilers.Broker.Store` | broker/client/client.go:72-95 | The write half: refused, created or patched with what the round changed on the version read, as `Fields.MergePatchExactly` and `Versions.StepKeepsField` say field by field |
| `Reconcilers.Broker.BrokerControlledListSingle` | client/client.go:43-78 | Counting the matches decides between not found, the one, and an error |
| `Reconcilers.Broker.ReconcileNamespaceTarget` | broker/controllers/core/namespace_controller.go:136-197 | Keeps the finalizer of a mapped namespace, otherwise creates the target if the namespace is used |
| `Reconcilers.Broker.DeleteNamespaceTarget` | broker/controllers/core/namespace_controller.go:90-117 | Deletes the labelled target namespace, lets go only when there is none |
| `Passes.FullPassIsRun` | broker/controllers/core/secret_controller.go:71-164 | The direct-style pass is what the calls of the pass do when nothing interferes |
| `Passes.PassShrinks` | broker/controllers/core/secret_controller.go:71-164 | Every call brings a pass nearer to its end, whatever the clusters answer and whatever happens meanwhile |
| `Drain.DrainPassShrinks` | broker/controllers/compute/machine_controller.go:97-135 | A delete pass moves down the measure live, deleting, gone, released, unless it waits for the cluster |
| `Drain.DrainTerminates` | broker/controllers/compute/machine_controller.go:97-135 | In any interleaving two complete delete passes with the target cluster's deletion between them release the object, if its target namespace resolves and nobody takes the name |
| `Drain.ReleasedExactly` | broker/controllers/storage/volume.go:298-319 | Exactly when a delete pass removes the finalizer, the vanished target namespace included |
| `Counterexamples.HeldWithoutNamespace` | broker/controllers/core/secret_controller.go:87-122 | A reachable state in which a marked secret holds its finalizer, its target namespace has gone, and no pass on it changes anything |
| `Drain.DrainNeverTurnsBack` | broker/controllers/core/secret_controller.go:71-122 | Over any run a draining object gains no target and loses no deletion mark until it is released without a target |
| `Drain.NamespaceDrainTerminates` | broker/controllers/core/namespace_controller.go:90-117 | In any interleaving two complete delete passes, with the emptied target namespace finished between them, release a namespace |
| `Usage.UsersReferSecrets` | api/storage/dependent/dependent.go:93-102 | A pool machine and a used volume make their secrets referenced |
| `Usage.IndexRefinesScan` | api/networking/controller/controller.go:132-164 | On one snapshot the indexed network query equals the full scan |
| `Usage.CachedRefinesLive` | broker/dependents/builder/dependent.go:115-172 | A cached yes is a live yes, and with one namespace the two agree |
| `Usage.LiveCrossesNamespaces` | broker/dependents/builder/dependent.go:152-172 | Without that the live query also answers yes for a secret of that name elsewhere |
| `Usage.AnswersDifferExactly` | broker/dependents/builder/dependent.go:115-172 | The two answers differ iff nothing in the namespace of the secret names it and something elsewhere does |
| `Usage.CachedOrLive` | broker/dependents/dependent.go:61-87 | On one snapshot the cached query followed by the live one gives the answer that decides what is needed |
| `Usage.WantedExactly` | api/networking/controller/controller.go:28-174 | An object is used or referenced iff there is a reason: a machine of the pool, under the name and the uid of each reference by uid on the way, that lists what it is asked for |
| `Usage.DanglingUnused` | api/networking/controller/controller.go:42-44 | What refers to a uid that no pool machine has is not used, even if there is a machine of the name again; nor are virtual IPs and networks that hang on nothing else |
| `Usage.OneMachineOneUid` | api/networking/controller/controller.go:60-62 | Used interfaces and volumes that name one machine carry the same uid |
| `UsageQueries.NetworkInterfaceUsed` | api/networking/controller/controller.go:28-62 | The query as a program answers yes iff there is a reason |
| `UsageQueries.VolumeInUse` | api/storage/controller/controller.go:28-62 | The same for volumes |
| `UsageQueries.VirtualIPUsed` | api/networking/controller/controller.go:176-204 | The same through the network interface the virtual IP points at |
| `UsageQueries.NetworkUsed` | api/networking/controller/controller.go:132-164 | The same over the listed network interfaces, by index or by skipping the others |
| `UsageQueries.NicNames` | api/compute/helper/helper.go:48-50 | The names are those of the interfaces the machine lists, generated ones included |
| `Frozen.BlockingPeersNeeded` | broker/controllers/compute/machine_controller.go:190-434 | Blocking references lead down the ranks, and to objects the broker does not skip |
| `Frozen.BestEffortPeersNeeded` | broker/controllers/networking/virtualip_controller.go:128-160 | Best effort references of needed objects lead to needed objects |
| `Frozen.LookupExact` | broker/provider/provider.go:72-93 | The target lookup of a peer succeeds iff it has a target |
| `Frozen.NoLookupFails` | broker/controllers/compute/machine_controller.go:490-515 | No pass on a needed object fails on a machine outside the pool |
| `Frozen.StepSettled` | broker/controllers/core/secret_controller.go:124-164 | On frozen sources no call of any pass, with passes on all keys under way, loses a namespace, a target or a needed finalizer, gives one to what is unwanted, changes a target's uid or outdates what another pass knows |
| `Convergence.CreatesExactly` | broker/sync/sync.go:35-45 | A pass that has read no target creates one iff its round found all that blocks, and else changes nothing |
| `Convergence.SinceStep` | broker/controllers/networking/networkinterface_controller.go:268-290 | Whatever happens meanwhile, a round does not miss what was there when its pass began |
| `Convergence.WellBoundAvailable` | broker/controllers/networking/networkinterface_controller.go:135-212 | In a well-bound graph no blocking chain deadlocks, cycles or not |
| `Convergence.StepBetween` | broker/sync/sync.go:35-45 | Nothing comes about that is not available, in no interleaving |
| `Convergence.UnwantedPassAchieves` | broker/controllers/core/secret_controller.go:71-122 | A pass on an unwanted object lets go of it, unless it is no volume and has no target namespace |
| `Sweeps.PassCompletes` | broker/controllers/networking/networkinterface_controller.go:237-304 | A pass that begins and ends among others completes the next stage for its key |
| `Sweeps.SevenSweepsConverge` | broker/controllers/compute/machine_controller.go:450-488 | Seven sweeps, however their passes interleave and fail, for any number of objects, give targets to exactly the available objects, bring all up to date and let go of what is unwanted |
| `Sweeps.ConvergesByARun` | broker/controllers/core/secret_controller.go:53-61 | Such sweeps exist: from every settled state calls of passes alone lead to a converged one |
| `Sweeps.ConvergedIsImage` | broker/controllers/compute/machine_controller.go:190-488 | In a well-bound graph the target graph is then the image of the source graph, uid references included |
| `Sweeps.ConvergedIsFixpoint` | broker/controllers/storage/volume.go:191-279 | No further call of any pass, under way or new, changes anything in the clusters |
| `Sweeps.SweepShrinksDefects` | broker/controllers/networking/networkinterface_controller.go:237-304 | Every earlier sweep strictly shrinks the set of missing finalizers, namespaces, targets and updates |
| `Sweeps.NoDefectsConverged` | broker/controllers/networking/networkinterface_controller.go:237-304 | That set is empty iff the state has converged |
| `Sweeps.FromScratch` | broker/controllers/core/namespace_controller.go:136-197 | The same from the moment users have created the objects |
| `Sweeps.SweepsAreRun` | broker/controllers/core/secret_controller.go:53-61 | What sweeps reach is reached by one run of the protocol, so every safety result holds of it |
| `Recovery.UnwantedGone` | broker/controllers/networking/networkinterface_controller.go:81-93 | After a pass on an unwanted object, among others and whatever was under way, no target of it is left once the target cluster has finished its deletions |
| `Recovery.RecoveryConverges` | broker/controllers/core/secret_controller.go:53-164 | From every reachable state with sources at rest and only targets of the broker, passes that end, passes on what is unwanted and finished deletions lead to a settled state, from which seven sweeps converge |
| `Recovery.RecoveryExists` | broker/controllers/core/secret_controller.go:53-164 | From every such state there is a run of that kind |
| `Recovery.ConvergesFromAnywhere` | broker/controllers/core/secret_controller.go:53-164 | So from every such state a run of the protocol leads to a settled state and calls of passes on to a converged one |
| `Sweeps.CyclicGraphNeeded` | broker/controllers/networking/networkinterface_controller.go:155-186 | In that cycle the machine blocks on the network interface, which waits for the machine without blocking |
| `Sweeps.CyclicGraphWellBound` | broker/controllers/networking/virtualip_controller.go:128-160 | Machine, network interface, virtual IP and volume in a cycle are within the assumptions |
| `OwnerReferences.ReferSameObjectEquivalence` | multicluster/controllerutil/controllerutil.go:181-197 | Symmetric, transitive, and reflexive exactly on parseable API versions |
| `OwnerReferences.OwnersReferSameObject` | multicluster/controllerutil/controllerutil.go:181-197 | References to owners are to the same object iff cluster, group, kind, namespace and name agree, whatever the versions and uids |
| `OwnerReferences.ParseExactly` | multicluster/controllerutil/controllerutil.go:181-190 | A version with two slashes does not parse; one slash parts group and version; without one there is no group |
| `OwnerReferences.OtherClustersUntouched` | multicluster/controllerutil/controllerutil.go:192 | Any operations of one cluster leave every entry of every other cluster, and what owners there are told |
| `OwnerReferences.ControllerOfExactly` | multicluster/meta/meta.go:95-108 | The controller is the first entry whose flag is there and true |
| `OwnerReferences.ControllerStays` | multicluster/controllerutil/controllerutil.go:72-76 | After an accepted controller every other object is refused, in other clusters too, and the same one, recreated or in another version, is not |
| `OwnerReferences.DeprecatedMigrates` | multicluster/meta/meta.go:54-93 | With the deprecated annotation alone its owners are read, and the next write moves them to the new one |
| `OwnerReferences.RemoveAbsent` | multicluster/controllerutil/controllerutil.go:104-111 | Removing an owner that is not there changes nothing, not even the deprecated annotation |
| `OwnerReferences.WriteThenRead` | multicluster/meta/meta.go:54-93 | Writing then reading gives the list back, drops the deprecated annotation, touches no other |
| `OwnerReferences.UpsertExact` | multicluster/controllerutil/controllerutil.go:161-169 | An upsert leaves the other entries and exactly one for the object |
| `OwnerReferences.RemoveExact` | multicluster/controllerutil/controllerutil.go:104-111 | Removal by swapping with the last leaves exactly the other entries |
| `OwnerReferences.OwnerListInvariant` | multicluster/controllerutil/controllerutil.go:52-169 | Over any operations no two entries refer to one object, at most one is controller, other annotations are untouched |
| `OwnerReferences.SetControllerControls` | multicluster/controllerutil/controllerutil.go:52-79 | An accepted controller is the controller, in its cluster and under its uid, and nobody else is |
| `OwnerReferences.IndexOwnerRef` | multicluster/controllerutil/controllerutil.go:172-179 | The first entry of the object, or -1 iff there is none |
| `OwnerReferences.Object.UpsertOwnerRef` | multicluster/controllerutil/controllerutil.go:161-169 | Read, replace or append, write back |
| `OwnerReferences.Object.RemoveOwnerRef` | multicluster/controllerutil/controllerutil.go:104-111 | Read, swap and cut, write back only if found |
| `OwnerReferences.Object.SetControllerReference` | multicluster/controllerutil/controllerutil.go:52-79 | Refused iff another object is the controller, unchanged then |
| `OwnerReferences.Object.HasOwnerReference` | multicluster/controllerutil/controllerutil.go:137-159 | Yes iff some entry has the cluster, kind, namespace and name of the owner and its group, under any version and uid |
| `OwnerReferences.Object.GetOwnerReferences` | multicluster/meta/meta.go:54-76 | New annotation first, then the deprecated one; what does not decode is empty |
| `OwnerReferences.Object.GetControllerOf` | multicluster/meta/meta.go:95-108 | The first controller entry |
| `OwnerReferences.Object.BrokerControlledMutate` | broker/client/client.go:72-83 | Refused iff it exists and is not controlled; a new object gets the controller besides its other owners, an existing one keeps its annotations, and a failure leaves them |
| `ProxyVolumes.ProxyVolumeApplier.ApplyTarget` | broker/controllers/storage/volume.go:57-87 | Error cases, and the one change to the one target |
| `ProxyVolumes.ProxyVolumeApplier.GetTarget` | broker/controllers/storage/volume.go:89-118 | The target iff it has this proxy as owner |
| `ProxyVolumes.ProxyVolumeApplier.DeleteTarget` | broker/controllers/storage/volume.go:120-154 | Done also when the target is gone |
| `ProxyVolumes.ProxiesShare` | broker/controllers/storage/volume.go:57-154 | Over any interleaving the owners are the original ones plus one per applied proxy |
| `ProxyVolumes.OwnsExactlyActive` | broker/controllers/storage/volume.go:89-118 | A proxy gets its target exactly while it is applied |
| `ProxyVolumes.AllDeletedRestores` | broker/controllers/storage/volume.go:120-154 | When all proxies are gone the original owners are left |
| `ProxyVolumes.TargetIsController` | broker/controllers/storage/volume.go:57-70 | The target of a proxy is the object that was made its controller |
| `AccessSecrets.AtMostOneSecret` | client/client.go:120-162 | Over every run a volume has at most one access secret, and controls it |
| `AccessSecrets.NeverRejected` | client/client.go:91-101 | What a pass finds is never somebody else's |
| `AccessSecrets.ListSingleRejects` | client/client.go:43-78 | In any state a secret is found iff it is the only one of the label in the namespace and controlled by the volume |
| `AccessSecrets.ReturnedIsTheSecret` | broker/controllers/storage/volume.go:331-379 | A returned secret is the only one; its data is the target's exactly unless it was changed behind an up-to-date read |
| `AccessSecrets.ReturnedIsForeign` | broker/controllers/storage/volume.go:331-379 | A run after which the returned secret has data that is not the target's |
| `AccessSecrets.QuietPass` | broker/controllers/storage/volume.go:331-379 | Exactly one secret with the target's data, or none when the target has none |
| `AccessSecrets.AccessApplier.ApplyAccess` | broker/controllers/storage/volume.go:331-379 | The pass as a program, with anything between list and write; undisturbed it returns a secret with the target's data, unless there is none and the generated name is taken |
| `Dependents.CachedIsLiveInNamespace` | broker/dependents/builder/dependent.go:115-172 | On one snapshot both queries of a declaration agree on the objects of the secret's namespace |
| `Dependents.DeclarationsAsk` | api/compute/dependent/dependent.go:62-71 | The cached queries built for secrets ask what the usage model says |
| `Dependents.LiveDeclarationsAsk` | api/storage/dependent/dependent.go:93-102 | The same for the live queries |
| `Dependents.LapsesExactly` | broker/dependents/listreferencer.go:108-137 | Exactly when a referent that was one throughout can be missed: a volume whose claim moved between the list and the usage read |
| `Dependents.MachinesNeverLapse` | api/compute/dependent/dependent.go:62-71 | A machine that is a referent throughout is never missed, whatever else of it changes |
| `Dependents.SteadyVolumesNeverLapse` | api/storage/dependent/dependent.go:93-102 | Nor is a volume whose claim stays |
| `Dependents.MovedClaimIsMissed` | api/storage/controller/controller.go:28-44 | Two snapshots between which a claim moves, both with the referent, and the query misses it |
| `Dependents.Mixin.ReferencesIn` | broker/dependents/listreferencer.go:108-137 | A live no misses no referent that was one throughout but by such a move; a yes has a listed object that passed |
| `Dependents.Mixin.IsReferenced` | broker/dependents/dependent.go:61-87 | No stale cache and no change between calls hides a referent that was there throughout, but for a claim that moves |
| `Wakeups.EventHandler.OnEvent` | broker/handler/enqueuerequestbydependentreference.go:58-107 | Enqueues exactly the names of the object before and after, if the filter lets the event through |
| `Wakeups.WokenExactly` | broker/handler/enqueuerequestbydependentreference.go:58-107 | The keys are those in the namespace of the object whose names it has, or had before an update |
| `Wakeups.FlipIsWoken` | broker/handler/enqueuerequestbydependentreference.go:58-107 | An event on a referent that flips an answer concerns a key it names |
| `Wakeups.VolumeWakeUpComplete` | api/storage/dependent/dependent.go:93-102 | Every event on a volume that flips an answer wakes the key |
| `Wakeups.MachineWakeUpExactly` | api/compute/predicate/predicate.go:24-29 | Of the flipping events on a machine those wake the key that do not take it out of the pool, and only those |
| `Wakeups.PoolChangeSleeps` | api/compute/predicate/predicate.go:24-29 | Leaving the pool flips the answer and wakes nobody |
| `Pools.AccumulatePools` | broker/controllers/storage/volumepool_controller.go:149-171 | Sums per resource over all pools, classes as the strictly sorted union |
| `Pools.LessExactly` | broker/controllers/storage/volumepool_controller.go:149-171 | The order of the classes is that of a dictionary, ascending |
| `Pools.ReorderingInvariant` | broker/controllers/storage/volumepool_controller.go:149-171 | Any order of the pools announces the same |

## Left out

- Sweeps.SevenSweepsConverge: assumes that every key that is needed or unwanted keeps being reconciled, and a target cache that does not lag behind; which watch event causes a pass is only modelled for secret references.
- Recovery.RecoveryConverges: assumes that no source object is being deleted (`Drain` says when deletions end, and `Counterexamples.HeldWithoutNamespace` that some never do) and that objects of others in the target namespaces have gone.
- Convergence.UnwantedPassAchieves: machines outside the pool are left alone by the source, so nothing is said about letting go of them.
- Creation.FoundInThisPass: with a target cache that lags behind the peer may have had its target only before the pass; that it had one at all is `Creation.PeersHadTargets`.
- Reconcilers.Broker.LookupPeers: the three reads of one lookup (source, namespace list, target) are one step, and two references of an object to the same peer share the later answer of the round.
- Reconcilers.Broker.QueryWanted: the reads of the cached queries are one step, and those of the live ones; `Dependents` has them one by one, for references.
- ProxyVolumes.ProxiesShare: the get and the patch of one apply or delete are one step, so interleavings are serial.
- AccessSecrets.AtMostOneSecret: nobody but the broker writes the access label, and names of deleted secrets are not used again.
- Dependents.Mixin.IsReferenced: references by namespace are not modelled here; `Usage.NamespaceUsed` has their two queries.
- Wakeups.VolumeWakeUpComplete: events on the volume itself; a change of the machine that makes a volume unused wakes no secret in the source either.
- Several brokers that share a target cluster, or write the same labels.
- Events, logging, requeue results, status patches and timestamps.
- ConfigMaps (as secrets), alias prefixes, machine pools (part of what volume pools do) and the pool deletion guards.
- Pool filtering of the volume-to-secret query of the volume broker, where one field selector replaces the other.
- The prefix of generated namespace names, label selectors of target pools, and the domains that make finalizers and labels distinct.
- Errors of the type registry (unknown types, unregistered providers) and of the scheme.
- Filtering owner references by cluster and type.
- JSON text: an annotation value is a list that one of the decoders accepts, or any other text.
- Manager, cluster, index and watch wiring.
