# GoKube: a verified model

GoKube is a small control plane. A ReplicaSet controller, a scheduler and kubelets
coordinate only through a shared etcd store, and a list-then-watch client keeps
readers in step with that store. This project models that behaviour in Dafny and
proves what it guarantees in every run, and exactly where a guarantee ends.

`dafny verify dfyconfig.toml` checks all files.

The modules, from the bottom up:

- `Wrappers`, `Api`: options and results; pods, ReplicaSets, nodes and ownership by name prefix.
- `Names`: the bit-slicing sampler and generated names.
- `KeyOrder`, `Layout`, `Storage`, `Registry`: the byte order of keys, three maps laid out in
  one key space, the etcd-backed store, and the three registries as a refinement of three maps.
- `Replicas`, `Controller`: counting and creating pods, `Reconcile` and `Run`.
- `Scheduler`, `Kubelet`, `Handlers`: the other actors as sequential code.
- `Placement`, `PlacementSafety`, `ReplicaBound`, `Passes`: all actors together as a state machine
  whose steps are single storage calls, with the safety results over every interleaving, and what
  the steps of one actor add up to when nothing interrupts it.
- `History`, `Watchers`: etcd as a log with the store at every revision and the watch events;
  the two translations of those events.
- `Sessions`, `Pipeline`, `Replication`: ListWatch as a replication protocol, its channels as a
  state machine, and the link between the two.
- `ListWatch`, `Retry`: the client handle over a whole run, and the backoff.

Code that updates objects, the store, a buffer or a loop variable is a class or a
method with its loop; protocols of several goroutines or processes are state
machines; expressions are functions.

Main results:

- `PlacementSafety.SinglePlacement`, `PlacementSafety.CacheCoherence` and
  `ReplicaBound.NoOverProvisioning` hold in every interleaving of one controller, one
  scheduler and any number of kubelets. That a set never has more pods than desired is false of
  the code for templates of several containers: see `Controller.TwoContainersExceedTheCount`.
- `Sessions.SessionExactWhen`, `Sessions.SessionAlwaysExactWhen`, `Sessions.LiveValues`,
  `Sessions.GhostKeys` and `Sessions.ViewIsASnapshotPerKey` say when the map of a ListWatch consumer equals the
  store, which revisions can make it differ, and what it holds then. That it always equals the
  store is false of the code: see `Sessions.PutInTheWindowIsMissed` and
  `Sessions.DeletionBetweenSessionsIsMissed`.
- `Pipeline.Conservation` and `Replication.ConsumerAtEveryMoment` carry these results through
  both channels to the consumer, over any number of failures, in every interleaving and at every
  moment, also in the middle of a re-list.
- `ListWatch.ListWatch.RunListWatchLoop` and `ListWatch.OneStaleFailureAtMost` cover the client handle.
- `Controller.ReplicaSetController.Reconcile` and `Controller.ReplicaSetController.Run` decide from
  the store and the random suffixes whether a pass or a tick succeeds; `Controller.ReconcileCounts`,
  `Controller.MeetsTheDesiredCountWhen`, `Controller.ReconcileIsIdempotentWhen`,
  `Controller.IsolatedRun` and `Controller.LongNamesGrowForever` say what it does and when it
  reaches the desired count.
- `Passes.ControllerPassReconciles`, `Passes.SchedulerPassBinds` and `Passes.KubeletPassAdmits` tie
  the steps of the state machine to the sequential code.
- `Registry.Registries.ExecuteAll` refines any run of registry operations to three separate maps.
- `Names.String` refines "the letters of the first n accepted base-32 digits".

Where the code and its documentation disagree the model follows the code: the
sequence diagram starts the watch at the listed revision, the code asks for the
revision a second time; a re-list in the code reports no deletions.

Assumptions, all explicit in the model: etcd is linearisable, nothing is compacted, and
a call that fails has no effect; `flaky` allows writes and range reads to fail,
`flakyGets` single-key reads; encoding and decoding an object is the identity; a `char`
is one byte. The random suffixes of a pass are an input of which there are always
enough. In the interleaving model a single-key read fails only when the key is absent,
nobody else writes pods, no process restarts, there is one controller and one scheduler,
kubelets have distinct non-empty node names, and a kubelet finishes one update before it
starts the next. `ReplicaBound` assumes moreover that the names of the sets are pairwise
apart (neither a prefix of the other, and not cut to the same 58 bytes),
that no set is edited during the run, and that a kubelet never sees a failed pod recover;
`ReplicaBound.DesiredCountIsNotExceeded` also assumes a one-container template and a start
at or below the desired count.

## Model

| member | source | states |
|---|---|---|
| `Api.UnrelatedOwnersAreDisjoint` | pkg/api/pod.go:43-50 | ReplicaSets of which neither name is a prefix of the other own no pod in common |
| `Names.Rng.Int63` | pkg/registry/names/generate.go:82-101 | a draw returns the next number of the stream and advances past it |
| `Names.DigitOfShift` | pkg/registry/names/generate.go:64-101 | shifting right moves every base-32 digit down |
| `Names.ConsumptionIsUnique` | pkg/registry/names/generate.go:82-101 | only one number of digits is the least one that holds n letters, so the specification of the sampler is a function |
| `Names.NextDigit` | pkg/registry/names/generate.go:86-98 | refilling, masking and shifting yields the next digit of the concatenated groups of twelve |
| `Names.LettersOfIndexingDigits` | pkg/registry/names/generate.go:93-96 | exactly the digits below the size of the alphabet give a letter, one each and in order, and it is the letter they index |
| `Names.String` | pkg/registry/names/generate.go:82-101 | the result spells the first n digits that index the alphabet, skipping all others; m, the number of digits read, is the least that holds them, and exactly max(1, ceil(m/12)) numbers are drawn; it ends whenever the stream holds n such digits |
| `Names.EveryStringIsProduced` | pkg/registry/names/generate.go:64-101 | every string over the alphabet is the result for some stream of 63-bit numbers |
| `Names.GenerateName` | pkg/registry/names/generate.go:57-62 | the base cut to 58 bytes followed by the first five accepted letters of the stream |
| `Names.OwnershipBoundary` | pkg/registry/names/generate.go:50-62 | a generated name has its base as a prefix iff the base has at most 58 bytes, or at most 63 and the suffix starts with its bytes from 58 on |
| `Names.ForeignBoundary` | pkg/registry/names/generate.go:50-62 | it has an unrelated base as a prefix iff both bases are cut to the same 58 bytes and the suffix completes the other one |
| `Names.GeneratedNamesAreUnique` | pkg/registry/names/generate.go:57-62 | two generated names are equal iff the cut bases and the suffixes are |
| `KeyOrder.LessIsTotal` | pkg/storage/etcd_storage.go:80-104 | the byte order of keys is total, so a range read has one order |
| `KeyOrder.LessIsTheByteOrder` | pkg/storage/etcd_storage.go:80-104 | it is the byte order: a key is less iff it has the smaller byte at the first difference, or ends there |
| `KeyOrder.OrderedIsUnique` | pkg/storage/etcd_storage.go:80-104 | an ordered sequence is determined by its elements |
| `Layout.KeyIsInjective` | pkg/registry/pod_registry.go:35-37 | a key determines the name it was built from |
| `Layout.KeysAreDisjoint` | pkg/registry/replicaset_registry.go:34-36 | keys under unrelated prefixes never coincide |
| `Layout.PutHolds` | pkg/registry/pod_registry.go:42-63 | writing an object under its key is an update of its own map and of no other |
| `Layout.RemoveHolds` | pkg/registry/pod_registry.go:103-109 | deleting a key is a removal from its own map and from no other |
| `Layout.SectionRange` | pkg/storage/etcd_storage.go:80-104 | a range read under the prefix of a kind meets exactly that kind's keys, in the order of the names |
| `Layout.ValuesByAscendingName` | pkg/storage/etcd_storage.go:80-104 | a listing holds what the map holds, once for each name, and the names ascend in byte order |
| `Layout.HeldWorldIsWellFormed` | pkg/registry/pod_registry.go:42-99 | every stored pod is valid and every object sits at the key of its own name |
| `Storage.RegistryKeysAreSeparate` | pkg/registry/node_registry.go:35-37 | the three key prefixes of the repository keep the kinds apart |
| `Storage.EtcdStorage.Put` | pkg/storage/etcd_storage.go:31-42 | a put that succeeds stores the value at that key only; one that fails changes nothing |
| `Storage.EtcdStorage.Get` | pkg/storage/etcd_storage.go:44-58 | a read returns the stored value or not-found, or fails if reads may fail |
| `Storage.EtcdStorage.Delete` | pkg/storage/etcd_storage.go:72-78 | a delete that succeeds removes that key only, present or not |
| `Storage.EtcdStorage.List` | pkg/storage/etcd_storage.go:80-104 | the values of exactly the keys under the prefix, in key order |
| `Registry.PodRegistry.Create` | pkg/registry/pod_registry.go:42-63 | an existing name is refused, an empty status becomes Pending, an invalid pod is refused, otherwise only that pod is added; a failed existence check counts as absent |
| `Registry.PodRegistry.Get` | pkg/registry/pod_registry.go:67-83 | the stored pod, missing, or an internal error |
| `Registry.PodRegistry.Update` | pkg/registry/pod_registry.go:87-99 | a valid pod is stored under its name whether or not it existed |
| `Registry.PodRegistry.Delete` | pkg/registry/pod_registry.go:103-109 | the name is absent afterwards and every other pod is kept |
| `Registry.PodRegistry.List` | pkg/registry/pod_registry.go:113-123 | exactly the stored pods in the order of their names |
| `Registry.PodRegistry.ListByStatus` | pkg/registry/pod_registry.go:127-141 | exactly the stored pods with that status, in the order of their names |
| `Registry.WithStatusInOrder` | pkg/registry/pod_registry.go:127-141 | the filter keeps exactly the positions with that status, in order |
| `Registry.PodRegistry.ListPendingPods` | pkg/registry/pod_registry.go:151-153 | exactly the pending pods, in the order of their names |
| `Registry.ReplicaSetRegistry.Create` | pkg/registry/replicaset_registry.go:38-52 | an existing name is refused, otherwise only that set is added |
| `Registry.ReplicaSetRegistry.Get` | pkg/registry/replicaset_registry.go:54-65 | the stored set or missing |
| `Registry.ReplicaSetRegistry.Update` | pkg/registry/replicaset_registry.go:67-81 | a missing name is refused, otherwise only that set is replaced |
| `Registry.ReplicaSetRegistry.Delete` | pkg/registry/replicaset_registry.go:83-89 | the name is absent afterwards and every other set is kept |
| `Registry.ReplicaSetRegistry.List` | pkg/registry/replicaset_registry.go:91-102 | exactly the stored sets in the order of their names |
| `Registry.NodeRegistry.Create` | pkg/registry/node_registry.go:40-54 | an existing name is refused, an invalid node is refused, otherwise only that node is added |
| `Registry.NodeRegistry.Get` | pkg/registry/node_registry.go:57-71 | the stored node, missing, or an internal error |
| `Registry.NodeRegistry.Update` | pkg/registry/node_registry.go:74-83 | a valid node is stored under its name whether or not it existed |
| `Registry.NodeRegistry.Delete` | pkg/registry/node_registry.go:86-89 | the name is absent afterwards and every other node is kept |
| `Registry.NodeRegistry.List` | pkg/registry/node_registry.go:92-100 | exactly the stored nodes in the order of their names |
| `Registry.Registries.Execute` | pkg/registry/pod_registry.go:35-123 | one operation on the shared store has an outcome that three separate maps allow |
| `Registry.Registries.ExecuteAll` | pkg/registry/replicaset_registry.go:34-102 | without failures any sequence of operations gives the replies and the final maps of three separate maps |
| `Registry.PodOperationsAreLocal` | pkg/registry/pod_registry.go:35-123 | a pod operation changes no set and no node and depends on neither, whatever fails |
| `Registry.SetOperationsAreLocal` | pkg/registry/replicaset_registry.go:34-102 | the same for ReplicaSet operations |
| `Registry.NodeOperationsAreLocal` | pkg/registry/node_registry.go:35-100 | the same for node operations |
| `Registry.CreatePodLaw` | pkg/registry/pod_registry.go:42-63 | when etcd works a pod is refused iff its name is stored, or it is unnamed, lacks a container slice, has an incomplete container or a negative count; otherwise it is stored with an empty status made Pending, and no other name changes |
| `Registry.UpdatePodLaw` | pkg/registry/pod_registry.go:87-99 | the same refusals but for the stored name; the pod is stored as given |
| `Registry.CreateSetLaw` | pkg/registry/replicaset_registry.go:38-52 | a set is refused iff its name is stored, and then the stored one stays |
| `Registry.UpdateSetLaw` | pkg/registry/replicaset_registry.go:67-81 | an update is refused iff the name is not stored |
| `Registry.CreateNodeLaw` | pkg/registry/node_registry.go:40-54 | a node is refused iff its name is stored or empty |
| `Registry.UpdateNodeLaw` | pkg/registry/node_registry.go:74-83 | an update is refused iff the name is empty |
| `Registry.DeleteLaws` | pkg/registry/pod_registry.go:103-109 | a deletion removes the name, stored or not, and nothing else |
| `Registry.FailureLaws` | pkg/registry/pod_registry.go:42-123 | with failing calls: an operation that reports an error has changed nothing, and each error has its cause |
| `Registry.ReadLaws` | pkg/registry/pod_registry.go:67-153 | a read returns what is stored, or the error of its registry if reads may fail; a listing returns the map |
| `Registry.CreateOverwritesOnlyBlindly` | pkg/registry/pod_registry.go:42-63 | with a working existence check a name in use is refused and nothing changes; with a failed one the stored pod is replaced iff the new one is valid and differs |
| `Replicas.ListingCounts` | pkg/controller/replica_set_controller.go:84-97 | filtering the listing counts exactly the active owned pods of the store |
| `Replicas.OwnedInOrder` | pkg/controller/replica_set_controller.go:84-97 | the filter keeps exactly the positions of the active owned pods, in order |
| `Replicas.CountsAfterCreations` | pkg/controller/replica_set_controller.go:51-67 | creations under free names leave every existing pod alone and raise each set's count by the new names that carry its name |
| `Replicas.OwnAmongMade` | pkg/controller/replica_set_controller.go:137-139 | of the pods made for a set, whatever the length of its name, it owns exactly those whose suffix keeps the name |
| `Replicas.ApartOwnNone` | pkg/api/pod.go:43-50 | no pod made for a set is owned by an unrelated one that is not cut to the same 58 bytes |
| `Controller.ReplicaSetController.GetPodsForReplicaSet` | pkg/controller/replica_set_controller.go:84-97 | the active owned pods of the listing, in order; Replicas.ListingCounts says how many |
| `Controller.ReplicaSetController.CreateOne` | pkg/controller/replica_set_controller.go:53-66 | one creation stores the pod under the drawn name, or changes nothing because that name is taken, the container is incomplete or etcd failed |
| `Controller.ReplicaSetController.CreateReplica` | pkg/controller/replica_set_controller.go:53-66 | one pending pod per template container, in order; a failure names the creation that failed and why it did at that moment |
| `Controller.ReplicaSetController.CreateReplicas` | pkg/controller/replica_set_controller.go:51-67 | (d - c) * k pods made from the template in order, or a first part of them up to the creation that failed |
| `Controller.ReplicaSetController.Reconcile` | pkg/controller/replica_set_controller.go:28-82 | success adds exactly the missing pods under the drawn names and writes the status when the count was off; failure leaves the pods made so far and the set untouched and has its cause at the next creation; while etcd works the pass succeeds iff the set is stored, no drawn name is taken when its turn comes, and the containers are complete if any pod is missing |
| `Controller.ReplicaSetController.ReconcileAll` | pkg/controller/replica_set_controller.go:126-132 | while etcd works a run succeeds iff every pass goes in the store the earlier ones left; for sets pairwise apart iff every pass would go in the initial store, and then each set gets the new pods that keep its name and nothing else changes |
| `Controller.ReplicaSetController.Run` | pkg/controller/replica_set_controller.go:119-134 | the same for all stored sets |
| `Controller.ReconcileCounts` | pkg/controller/replica_set_controller.go:36-82 | after a pass every old pod is unchanged, the set's count rises by exactly the new pods whose name keeps the set's name, for names of every length, and the counts of sets apart from it are unchanged |
| `Controller.PassMakesTheTemplate` | pkg/controller/replica_set_controller.go:51-66 | new pod number t is stored under its drawn name, pending and unbound, and runs one container: the template's number t modulo the size of the template |
| `Controller.PassWritesTheStatus` | pkg/controller/replica_set_controller.go:68-82 | the status of the set becomes the desired count iff the count was off, and no other set, no specification and no node changes |
| `Controller.MeetsTheDesiredCountWhen` | pkg/controller/replica_set_controller.go:48-77 | the count after a pass is the desired one iff it already was, or it was lower and as many new names as were missing keep the set's name; it exceeds it iff it did, or more do; up to 58 bytes that means one container, or several; above 63 bytes the count never moves |
| `Controller.TwoContainersExceedTheCount` | pkg/controller/replica_set_controller.go:51-67 | an input: a set that wants one pod of a two-container template succeeds and has two |
| `Controller.LongNameIsNeverServed` | pkg/controller/replica_set_controller.go:137-139 | an input: a set with a name of 64 bytes that wants one pod succeeds in making one and still counts none |
| `Controller.ClearHasNoCause` | pkg/controller/replica_set_controller.go:28-82 | a pass that the store and the draws allow has no cause to fail while etcd works |
| `Controller.ReconcileIsIdempotentWhen` | pkg/controller/replica_set_controller.go:28-82 | for names of every length, and passes that meet no taken name, a second pass changes no stored value iff after the first as many new names as were missing keep the set's name, or nothing was missing, or the template has no container |
| `Controller.ReconcileIsIdempotent` | pkg/controller/replica_set_controller.go:28-82 | so up to 58 bytes a second pass changes no stored value, whatever names it draws |
| `Controller.ReconciledIsSettledWhen` | pkg/controller/replica_set_controller.go:28-82 | under exactly that condition nothing is missing after a pass, and if the count is off the status says the desired one |
| `Controller.LongNamesGrowForever` | pkg/controller/replica_set_controller.go:51-67 | above 63 bytes n passes add n * max(0, d - c) * k pods while the count stays c |
| `Controller.ReconcilingOneSet` | pkg/controller/replica_set_controller.go:119-134 | reconciling one isolated set gives it its gain and keeps every other set's count, specification and free names |
| `Controller.IsolatedRun` | pkg/controller/replica_set_controller.go:119-134 | over sets pairwise apart all passes go, one after the other, iff each would go in the initial store |
| `Scheduler.PendingPodsAreThePending` | pkg/registry/pod_registry.go:127-153 | the listing holds exactly the pending pods of the store |
| `Scheduler.PendingPodsAreOrdered` | pkg/registry/pod_registry.go:127-153 | in the order of their names, each once |
| `Scheduler.AssignAllBinds` | pkg/scheduler/scheduler.go:61-76 | writing the first j listed pods binds exactly those, each to its pick, and changes nothing else |
| `Scheduler.CompletePassLeavesNothingPending` | pkg/scheduler/scheduler.go:43-79 | after a complete pass no pod is pending, so a second pass finds nothing to do |
| `Scheduler.PassKeepsSpecs` | pkg/scheduler/scheduler.go:43-79 | a pass keeps all pod names and specs and only turns pending pods into scheduled ones |
| `Scheduler.Scheduler.AssignListed` | pkg/scheduler/scheduler.go:61-76 | if update j fails, exactly the first j - 1 listed pods are written, on available nodes |
| `Scheduler.Scheduler.SchedulePendingPods` | pkg/scheduler/scheduler.go:43-79 | whatever fails, exactly the first pending pods are bound to stored nodes and all else is unchanged; all of them on success; none without nodes |
| `Kubelet.ScansAreQuantifiers` | pkg/kubelet/kubelet.go:282-316 | the four scans decide whether some container runs, some exists, all succeeded, all existing ones failed |
| `Kubelet.StatusIsAPartition` | pkg/kubelet/kubelet.go:266-280 | exactly one of Running, Failed, Scheduled, Succeeded, each iff its condition on the states; never Pending |
| `Kubelet.StatusIgnoresOrderAndRepetition` | pkg/kubelet/kubelet.go:266-280 | the status depends only on the set of states |
| `Kubelet.GetPodStatus` | pkg/kubelet/kubelet.go:231-242 | the status of the collected states; an error iff some inspection failed |
| `Kubelet.AdmitAllStartsOnce` | pkg/kubelet/kubelet.go:105-114 | any listing, with repetitions, starts each pod at most once and forgets none |
| `Kubelet.AdmitAllKeepsFirstCopy` | pkg/kubelet/kubelet.go:105-114 | a known pod keeps its copy; a new one gets its first listed copy |
| `Kubelet.Kubelet.RunNewPods` | pkg/kubelet/kubelet.go:105-114 | the map and the starts after a listing was worked off |
| `Kubelet.Kubelet.UpdateStatus` | pkg/kubelet/kubelet.go:347-357 | only the status of one known pod changes, and the whole cached pod is sent exactly when it did |
| `Handlers.ByNodeSelects` | pkg/api/handlers/pod.go:80-88 | the node filter keeps exactly the pods of that node |
| `Handlers.ByNodeInOrder` | pkg/api/handlers/pod.go:80-88 | it keeps exactly their positions, in order; without a node name it keeps the listing |
| `Handlers.PodHandler.ListPods` | pkg/api/handlers/pod.go:68-91 | the stored pods of the node, or all of them without a filter |
| `Handlers.PodHandler.UpdatePod` | pkg/api/handlers/pod.go:104-134 | a pod that exists is replaced by a valid one of its name; nothing else changes; each error has its cause |
| `Handlers.PodHandler.LoadPod` | pkg/api/handlers/pod.go:27-41 | the loaded pod is the stored one; otherwise it is absent or the read failed |
| `PlacementSafety.AssignPodKeepsInv` | pkg/scheduler/scheduler.go:61-76 | writing back a pod from an old listing keeps the invariant, because nobody else changes a pending pod |
| `PlacementSafety.RunPodKeepsInv` | pkg/kubelet/kubelet.go:105-114 | a pod is started only where it is bound and only if no kubelet started it |
| `PlacementSafety.ReplaceChangesOnlyStatus` | pkg/api/handlers/pod.go:104-134 | writing back a whole cached copy changes only the status of the stored pod |
| `PlacementSafety.StepKeepsInv` | pkg/kubelet/kubelet.go:105-114 | every storage call of every actor keeps the invariant and lets pods change only as allowed |
| `PlacementSafety.RunKeepsInv` | pkg/scheduler/scheduler.go:43-79 | the invariant holds in every reachable state |
| `PlacementSafety.SinglePlacement` | pkg/scheduler/scheduler.go:43-79 | between any two states of a run a pod's node changes at most once, from empty to a listed node; it never becomes pending again; at most one kubelet starts it, once, and it is the one of its node |
| `PlacementSafety.CacheCoherence` | pkg/kubelet/kubelet.go:340-363 | every cached pod agrees with the stored one on name, spec and node, so an update changes only the status |
| `ReplicaBound.PutPodKeepsBound` | pkg/controller/replica_set_controller.go:51-67 | a creation turns one planned pod into one counted pod and raises no other count, for templates with any number of containers |
| `ReplicaBound.CountingKeepsBound` | pkg/controller/replica_set_controller.go:36-50 | when a pass counts c of d replicas with k containers, c plus what it plans stays within d * k |
| `ReplicaBound.ReplacePodKeepsBound` | pkg/api/handlers/pod.go:104-134 | an update never revives a failed pod |
| `ReplicaBound.NoOverProvisioning` | pkg/controller/replica_set_controller.go:36-67 | in every interleaving, active plus still planned pods of a set never exceed d * k, or what it started with, also midway through a pass |
| `ReplicaBound.DesiredCountIsNotExceeded` | pkg/controller/replica_set_controller.go:36-67 | with a one-container template a set that starts with at most the desired number of active pods never has more |
| `Passes.ControllerPassReconciles` | pkg/controller/replica_set_controller.go:28-82 | the controller's steps over one set, not interrupted, do to the store what Reconcile does, and it goes on to the next set |
| `Passes.SchedulerPassBinds` | pkg/scheduler/scheduler.go:43-79 | the scheduler's steps, not interrupted, bind every pending pod to a stored node and leave none pending |
| `Passes.NoNodesNoPass` | pkg/scheduler/scheduler.go:43-60 | without nodes they change nothing |
| `Passes.KubeletPassAdmits` | pkg/kubelet/kubelet.go:105-114 | a kubelet's steps, not interrupted, make known and start the pods that working off the listing does |
| `Passes.ReportedStatusesAreDerived` | pkg/kubelet/kubelet.go:266-280 | the statuses a kubelet may report are exactly those derived from some container states |
| `Passes.StatusIsReported` | pkg/kubelet/kubelet.go:340-389 | an observed change that is not interrupted stores exactly the observed status of that pod, caches the same, and changes nothing else |
| `Passes.UnchangedStatusIsNotReported` | pkg/kubelet/kubelet.go:354-357 | a status that did not change sends nothing |
| `Passes.FailedReportIsNotRepeated` | pkg/kubelet/kubelet.go:354-359 | a report that fails leaves the store as it was, and seeing the same status again sends nothing |
| `Passes.TickReconcilesAll` | pkg/controller/replica_set_controller.go:119-134 | from idle the controller's steps, not interrupted, pass over every stored set in the order of names, do to the store what Run does, and end idle |
| `Passes.ControllerGivesUpWhen` | pkg/controller/replica_set_controller.go:28-66 | a step of the controller gives up iff its set is gone, its drawn name is taken or its container is incomplete, and then writes nothing |
| `History.TimelineOf` | pkg/storage/etcd_storage.go:31-112 | every log of puts, deletes and prefix deletes has its store at every revision |
| `History.TransactionOnKey` | pkg/storage/etcd_storage.go:31-112 | what a put, a delete and a prefix delete make of each key, with its creation and modification revision |
| `History.StreamOnKey` | pkg/listwatch/listwatch.go:388-425 | replaying revisions (from, to] onto any map sets exactly the keys changed there to the store's value at `to` |
| `History.UnchangedSince` | pkg/listwatch/listwatch.go:388-425 | a key keeps its entry from its last change on |
| `History.ReplayIsExact` | pkg/listwatch/listwatch.go:388-425 | replaying from an exact map leads to an exact map |
| `Watchers.StoreIsDated` | pkg/listwatch/listwatch.go:402-414 | creation revisions are positive and never after modification revisions |
| `Watchers.WatchersAgree` | pkg/listwatch/listwatch.go:402-414 | the revisions of a put are equal iff there was no previous value; Added, Modified, Deleted match ADD, UPDATE, DELETE, with the same key and value |
| `Watchers.OldValueIsReplayed` | pkg/storage/etcd_storage.go:180-207 | the old value of every event is what a replayed map holds just before it |
| `Sessions.List` | pkg/listwatch/listwatch.go:280-303 | one event per listed key in order, Added iff its revisions coincide, never Deleted |
| `Sessions.FoldOfList` | pkg/listwatch/listwatch.go:257-277 | a consumer that folds a list, as far as it was received, overrides its map with the store under the prefix and removes nothing |
| `Sessions.FoldIsReplay` | pkg/listwatch/listwatch.go:398-421 | folding the translated events is replaying the etcd events |
| `Sessions.EveryCutIsASession` | pkg/listwatch/listwatch.go:350-367 | every way a watch stream can be cut short is a session end |
| `Sessions.SessionOnTheWire` | pkg/listwatch/listwatch.go:257-303 | the view after a session is the fold of the listed and forwarded events that were received |
| `Sessions.SessionOnKey` | pkg/listwatch/listwatch.go:372-426 | exactly what a session makes of one key, by where its last change lies |
| `Sessions.OneSession` | pkg/listwatch/listwatch.go:372-426 | from an empty map every key whose last change is outside (list, watch start] is right |
| `Sessions.WindowShowsTheList` | pkg/listwatch/listwatch.go:379-389 | a key last changed inside that window shows its listed value |
| `Sessions.SessionExactWhen` | pkg/listwatch/listwatch.go:379-389 | on top of any map, a drained session ends with the store iff every key its watch does not report had its right value once the list was folded in |
| `Sessions.SessionAlwaysExactWhen` | pkg/listwatch/listwatch.go:379-389 | it does so at every drained revision iff the map with the list folded in is what the second read saw |
| `Sessions.ExactWhen` | pkg/listwatch/listwatch.go:379-389 | at a drained revision the view equals the store iff no key last changed in the window differs from its listed value |
| `Sessions.AlwaysExactWhen` | pkg/listwatch/listwatch.go:379-389 | it equals the store at every drained revision iff the two reads saw the same values |
| `Sessions.QuietWindowIsExact` | pkg/listwatch/listwatch.go:379-389 | no change under the prefix between the two reads makes the view exact |
| `Sessions.WatchFromTheListedRevisionIsExact` | diagrams/listwatch_retry_sequence.puml:54-59 | a watch from the listed revision would always be exact |
| `Sessions.PutInTheWindowIsMissed` | pkg/listwatch/listwatch.go:379-389 | a key put between the two reads stays missing |
| `Sessions.ViewIsASnapshotPerKey` | pkg/listwatch/listwatch.go:442-464 | after any number of sessions, cut anywhere, inside a list too, each key's entry is the store's value at one known revision |
| `Sessions.SourceAdvances` | pkg/listwatch/listwatch.go:442-464 | that revision never goes back from one session to the next |
| `Sessions.LiveValues` | pkg/listwatch/listwatch.go:442-464 | a live key can be wrong only if it last changed in the current session's window |
| `Sessions.StaleKey` | pkg/listwatch/listwatch.go:280-303 | a deleted key stays in the view iff it was deleted before the watch started and was listed or already there |
| `Sessions.GhostKeys` | pkg/listwatch/listwatch.go:442-464 | a key in the view but not in the store was deleted in the first window, or after what one session delivered and before the next one's watch |
| `Sessions.ManySessions` | pkg/listwatch/listwatch.go:442-464 | without such changes the view is exact, however many sessions failed |
| `Sessions.ManySessionsExactWhen` | pkg/listwatch/listwatch.go:442-464 | after any run of sessions, however cut, one more drained session ends with the store iff every key its watch does not report had its right value in the view once the list was folded in |
| `Sessions.DeletionBetweenSessionsIsMissed` | pkg/listwatch/listwatch.go:280-303 | a key deleted between two sessions stays in the view |
| `Pipeline.StepKeepsInv` | pkg/listwatch/listwatch.go:350-367 | every step keeps the capacities, the list before the watch, and at most one Error upstream, as the last event |
| `Pipeline.StepConserves` | pkg/listwatch/listwatch.go:154-167 | no step loses, repeats or reorders an event |
| `Pipeline.Conservation` | pkg/listwatch/listwatch.go:386-425 | in every interleaving received, buffered, held and unread events are the whole stream, once and in order; Errors of others do not matter |
| `Pipeline.ReceivedIsAPrefix` | pkg/listwatch/listwatch.go:350-367 | what the consumer received, Errors aside, is a prefix of the stream |
| `Pipeline.NothingIsLostOnFailure` | pkg/listwatch/listwatch.go:350-367 | when a watch fails, all events read from etcd are in the consumer's channel or received |
| `Pipeline.NeverStuck` | pkg/listwatch/listwatch.go:154-167 | while an event is on its way some step brings it closer, whatever the buffer size |
| `Pipeline.MovesAreBounded` | pkg/listwatch/listwatch.go:154-167 | however they are chosen, only a bounded number of steps of the session and the consumer can have an effect in a row |
| `Pipeline.DoneMeansReceived` | pkg/listwatch/listwatch.go:350-367 | when no event is on its way the consumer has everything |
| `Pipeline.StandstillMeansReceived` | pkg/listwatch/listwatch.go:350-367 | in any reachable state of an unbroken watch where none of them has an effect any more, the consumer has everything |
| `Pipeline.EndedWatchIsNotStuck` | pkg/listwatch/listwatch.go:350-367 | a loop that still forwards a watch that has ended always has a step with an effect, or the goroutine or the consumer has |
| `Pipeline.ActsAreBounded` | pkg/listwatch/listwatch.go:350-367 | only a bounded number of those steps can follow each other |
| `Pipeline.EndedWatchEndsTheSession` | pkg/listwatch/listwatch.go:355-366 | in any reachable state where none is left, an ended watch that was not cancelled has failed its session, and the consumer has received all that was read |
| `Pipeline.CancelledIsFinal` | pkg/listwatch/listwatch.go:160-166 | a cancellation stops the session for good: it sends nothing more, whatever it was sending |
| `Pipeline.NoErrorIsForwarded` | pkg/listwatch/listwatch.go:155-158 | an Error of the watch fails validation, so whatever the session adds for the consumer is data |
| `Pipeline.WatchMayEnd` | pkg/listwatch/listwatch.go:391-399 | a watch may end with or without an error whenever the goroutine waits; the error is passed on as an Error event |
| `Replication.StreamIsForwardable` | pkg/listwatch/listwatch.go:109-120 | under a non-empty prefix every translated event passes validation |
| `Replication.FoldIgnoresErrors` | pkg/listwatch/listwatch.go:139-151 | Error events do not change a consumer's map |
| `Pipeline.ListWasSent` | pkg/listwatch/listwatch.go:270-274 | when the loop has no listed event left the whole list is in the consumer's channel or received |
| `Replication.PrefixIsASession` | pkg/listwatch/listwatch.go:350-425 | whatever part of its events a session has delivered, folding it gives the view of that session cut at one place, possibly inside the list |
| `Replication.FailedLifeSentItsList` | pkg/listwatch/listwatch.go:270-274 | a session that ended because its watch failed had sent its whole list |
| `Replication.ConsumerAtEveryMoment` | pkg/listwatch/listwatch.go:439-470 | at every moment of every interleaving, over any number of failures and re-lists, what the consumer received folds to the view of a valid run of sessions with the same list and watch revisions; before the last one only a session that was cancelled while it sent its list lacks a part of it |
| `ListWatch.ListWatch.NewListWatch` | pkg/listwatch/listwatch.go:233-254 | an object with an open client iff the prefix is non-empty and the client could be created |
| `ListWatch.ListWatch.CloseEtcdClient` | pkg/listwatch/listwatch.go:170-175 | afterwards there is no handle and every client ever opened is closed |
| `ListWatch.ListWatch.EnsureConnected` | pkg/listwatch/listwatch.go:178-198 | succeeds iff there is a handle, open or stale, or a client can be created; never leaves a second open client |
| `ListWatch.ListWatch.ListAndSendExisting` | pkg/listwatch/listwatch.go:257-277 | a closed or unreachable client loses its handle; otherwise the handle is kept |
| `ListWatch.ListWatch.HandleWatchChannelClose` | pkg/listwatch/listwatch.go:306-325 | the handle is cleared unless the context was found done within the three tries |
| `ListWatch.ListWatch.WatchCancel` | pkg/listwatch/listwatch.go:428-433 | the client is closed and its handle kept |
| `ListWatch.ListWatch.WatchAndForwardEvents` | pkg/listwatch/listwatch.go:328-368 | never nil: a context that ended it is done, so its error is not nil, and every other exit returns an error; an ended watch leaves no open client |
| `ListWatch.ListWatch.Attempt` | pkg/listwatch/listwatch.go:447-464 | one attempt moves the handle and fails exactly as the handle state machine says, without using a missing client; its return of nil is never reached |
| `ListWatch.ListWatch.RunWithBackoff` | pkg/listwatch/listwatch.go:447-464 | a run of attempts is a backoff loop with its delays, ended by nil or by the context; a context that is done ends it when the delay is positive |
| `ListWatch.ListWatch.RunListWatchLoop` | pkg/listwatch/listwatch.go:439-470 | a backoff that returns while the context is live would be started again, but at most one is ever started, so the delays of a whole life are never reset; with positive delays the loop is finished iff the context is done, and then every client ever opened is closed |
| `ListWatch.CancelledAttemptIsLast` | pkg/retry/retry.go:34-37 | behind a positive delay an attempt that found the context done, such as one interrupted while it sent its list, is the last |
| `ListWatch.NoSuccessInScript` | pkg/listwatch/listwatch.go:447-464 | no attempt of a run is a success to the backoff |
| `ListWatch.OneStaleFailureAtMost` | pkg/listwatch/listwatch.go:428-464 | after any history, with etcd reachable and the context live, a watch is established at once, or at the second attempt iff the handle was stale |
| `ListWatch.StaleComesFromAWatch` | pkg/listwatch/listwatch.go:428-464 | a stale handle comes from a watch that ended in the attempt just before, so two stale failures never follow each other |
| `ListWatch.WatchLeaves` | pkg/listwatch/listwatch.go:306-366 | for each way a watch can end: a refused event or a done context leaves a stale handle; a closed channel clears it iff the three tries do not find the context done |
| `Retry.WithExponentialBackoff` | pkg/retry/retry.go:25-46 | calls until the first success or cancellation, with the specified delay before each retry |
| `Retry.WithRetries` | pkg/retry/retry.go:49-68 | stops at the first success, cancellation or last attempt and returns accordingly; without attempts nothing is called and the result is nil |
| `Retry.WaitIsACappedPower` | pkg/retry/retry.go:25-46 | with an integer multiplier m the i-th delay is min(initial * m^i, max) |
| `Retry.TruncIsTowardsZero` | pkg/retry/retry.go:38-39 | conversion to a duration drops the fraction towards zero, for either sign |
| `Retry.WaitsAreMonotonic` | pkg/retry/retry.go:25-46 | for every real multiplier of at least one the delays never shrink and stay within the maximum |
| `Retry.WaitsSettle` | pkg/retry/retry.go:25-46 | for every real multiplier m of at least one the delays become constant within max - initial steps: at the maximum iff initial is the maximum or initial * (m - 1) is at least one nanosecond, at the first delay otherwise |
| `Retry.SmallDelaysStall` | pkg/retry/retry.go:25-46 | an input of the second kind: a first delay of one with multiplier 1.5 never grows |
| `Retry.WaitsAreCapped` | pkg/retry/retry.go:25-46 | a delay exceeds the maximum iff it is the first and was configured to |
| `Retry.OversizedFirstWait` | pkg/retry/retry.go:25-46 | after an oversized first delay every delay is the maximum |

## Left out

- Docker: starting, listing and cleaning up containers and pulling images; observed container states are arbitrary input.
- HTTP: routes, status codes and JSON; a request is a call on the handler's methods.
- Validation by struct tags: replaced by a predicate on names, containers and images.
- Metrics, logging, commands, examples and configuration: no properties.
- Embedded etcd start-up, compaction and leases: the store is a revisioned log that keeps everything.
- Registry.NodeRegistry.Create: names that path joining would rewrite (empty, `.` or `..` segments) are excluded, because two of them can share a key.
- Registry.NodeRegistry.Get: names that path joining would rewrite (empty, `.` or `..` segments) are excluded, because two of them can share a key.
- Registry.NodeRegistry.Update: names that path joining would rewrite (empty, `.` or `..` segments) are excluded, because two of them can share a key.
- Registry.NodeRegistry.Delete: names that path joining would rewrite (empty, `.` or `..` segments) are excluded, because two of them can share a key.
- Registry.Registries.Execute: the same node names are excluded.
- Registry.Registries.ExecuteAll: the same node names are excluded.
- Prefix deletion of the storage layer: modelled in the history of revisions only, not as a registry operation.
- Floating point rounding and overflow of durations: delays are unbounded integers and the multiplier is a real number.
- 32-bit conversions of replica counts: counts are unbounded integers.
- Kubelet registration, server start-up, tickers and polling loops: a tick is one call.
- Restarts of processes and several controllers or schedulers: outside the interleaving results.
- The monitor goroutine of a watch: its Error events are sends by others at any time; nothing is claimed about sends after the channel is closed.
- Pipeline.NeverStuck: says that some step is enabled; with MovesAreBounded and StandstillMeansReceived any order of such steps delivers everything, but that goroutines are scheduled at all is not modelled.
- Kubelet.Kubelet.UpdateStatus: one pod of the loop over all pods; the map is read and written atomically.
