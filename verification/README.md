# op-stack-operator: verified model of the reconcile protocol

The operator runs two controllers, one for OpNode and one for OptimismNetwork resources, against a versioned
object store. This project models both reconcilers as one state machine over that store and proves what they
guarantee in every run; it then proves that the Reconcile methods, written the way the source writes them, make
exactly the machine's steps. Beside it stand the condition list, the hand-written status copy, the discovery
cache, the image rules, and the resource builders read as a small compiler from specs to arguments, volumes and
ports.

## The modules

| file | what it holds |
|---|---|
| `Types`, `Strings` | specs, statuses, validation; decimal printing, joining and splitting |
| `Conditions` | `SetCondition` and `GetCondition` on a slice, and the last-write-wins map it refines |
| `Images` | image defaults, version sets, override precedence |
| `Args`, `Builders`, `Decode`, `Wiring`, `Manifests`, `Assembly` | argument lists, pod and Service; reading them back; agreement between the parts; what the manifests say in the terms of the spec; the builders step by step |
| `Store`, `Machine`, `Steps` | the store and its calls; both reconcilers as micro-steps; users, other controllers, the collector |
| `Invariants`, `Preservation`, `Runs` | the inductive invariant and its proof over every run |
| `Safety`, `Waiting` | what every run keeps; that an OpNode runs only after its network was Ready |
| `Verdicts` | what each answer of each call leads to: the next call, and the conditions as a reader sees them |
| `Convergence`, `NetworkConvergence`, `NetworkErrors` | what an undisturbed reconcile reaches |
| `Lineage`, `Ownership`, `Claims`, `Departure`, `Leftovers`, `Inheritance` | the children of an object: where they come from, exactly when the claims about them are safe, and runs in which they are not |
| `Cluster`, `NodeController`, `NetworkController` | the imperative reconcilers, refined to the machine under every schedule |
| `StatusCopy` | the status on the heap: deep copies and aliasing |
| `Discovery` | the discovery cache with its clock and history |

A run is any list of moves from the empty store (`Machine.Exec`): one micro-step of some reconcile, the loss of a
reconcile in flight, a user creating, editing, deleting or re-creating an object or changing its finalizers, a
touch of metadata, a Secret somebody else makes, the collector taking a child of an owner that is gone. A
micro-step is one API call and everything computed up to the next; the call may be answered, be lost, or take
effect while its caller is told it failed.

## What is assumed of the environment

* A write with a stale resource version is a conflict; Update leaves the status alone and a status update leaves
  everything else alone; the generation grows exactly when the spec changes; a write that changes nothing keeps
  the resource version; Create fails if the name exists.
* The API rejects updates of a StatefulSet's selector, service name and claim templates.
* Reconciles of one key are serialised; reads return the current version.
* Only the operator removes its own finalizers, writes statuses, and writes or deletes StatefulSets, Services and
  the derived ConfigMaps. Anybody may make a Secret first.
* The collector takes only children whose owner is gone, at any later time. A name may be created again before
  that. Which claims about children then hold, and when they come back, is not assumed but proved
  (`Leftovers.ClaimsAreSafeIff`); `heirs` is a history variable of that proof that no step reads
  (`Ownership.StepWith`, `Ownership.OthersWith`).
* The L1 dial, the result of discovery, clock readings, key material and error texts are inputs of each step
  (`Machine.Ext`). Within a micro-step at most two clock readings are used.

Finalizers, condition types and phases are enumerations with a case for every other name. `past` and `built` are
history variables: the earlier specs of an object, and the spec and network a StatefulSet was last written from.
The flag names the builders use are an enumeration too, printed by `Args.FlagName`. `BuildImageConfig` is split in
two steps. Go integers are unbounded where they are only printed and bounded where the source converts them.

## Where the code promises less than one might think

* The Service update leaves the selector alone. In an OpNode that owns its children it agrees with the StatefulSet
  all the same, because a changed selector is rejected one step earlier (`Leftovers.ChildrenAgree`); such an OpNode
  stays in Error (`Convergence.OtherSetNeverSettles`), and the same holds for an edit of the storage settings. An
  OpNode created again beside an old Service can end in Running with a Service that selects none of its pods
  (`Inheritance.HeirsMayMisroute`), and it stays so (`Inheritance.OtherServiceNeverSettles`).
* Children left from an earlier object of the name are taken over without becoming the new object's own, so the
  collector may take them at any time: a StatefulSet without its Secret, a Service without its StatefulSet and a Ready
  network without its ConfigMap all occur (`Inheritance`). The claims of an object at rest hold for the rest of its
  life if and only if they hold now and no child has an owner that is gone; of an object that is being deleted, no
  child that a claim needs (`Leftovers.ClaimsAreSafeIff`).
* `SetCondition` moves the transition time even if nothing else changes, so a settled OpNode is rewritten on every
  reconcile (`Convergence.ReconcilingAgainChangesOnlyTimes` says that nothing else is).
* The cache key ignores the discovery method and the configured addresses, and two networks with opposite chain
  IDs can share one (`Discovery.KeysCollide` gives the exact condition).
* A ConfigMap failure, and no other, sets the phase of a network to Error with all conditions True, and no error exit
  of a network advances its observed generation (`NetworkErrors.ErrorsTell`; `NetworkErrors.LostConfigMap` is an input).
* The pod of an OpNode mounts a ConfigMap of its own namespace, which the network brings about only if it is there too
  and discovers its rollup configuration (`NetworkConvergence.RollupVolumeIff`).
* A replica with an enabled sequencer section passes validation and runs as a sequencer (`Wiring.ReplicaMaySequence`).
* The sequencer endpoint of a validated sequencer is its own HTTP port, but with HTTP disabled no listener is asked for
  (`Wiring.SequencerReachesItself`), op-geth is given the JWT only if its engine API is configured
  (`Wiring.JwtIsShared`), and the Service's metrics port does not follow the metrics flag (`Wiring.MetricsPortIsFixed`).
* The default images do not pass the version check (`Images.DefaultsAreIncompatible`).
* A list item with a comma does not survive `joinStrings` (`Decode.HttpDecodes`, `Decode.WsDecodes` are exact).

## Model

| member | source | states |
|---|---|---|
| Types.NodeSpecAccepted | internal/controller/opnode_controller.go:191-237 | validation accepts exactly the specs with a network, a known node type, for sequencers an enabled sequencer section without discovery and an HTTP URL or none, and no empty storage |
| Types.NetworkSpecAccepted | internal/controller/optimismnetwork_controller.go:159-209 | validation accepts exactly the specs with two different chain IDs, an L1 URL and at most one source for each configuration |
| Types.NodeFaultIsNamed | internal/controller/opnode_controller.go:191-237 | an OpNode spec with one fault is told that fault |
| Types.NetworkFaultIsNamed | internal/controller/optimismnetwork_controller.go:159-209 | the same of a network spec |
| Runs.Reachable | internal/controller/opnode_controller.go:70-188 | the invariant (valid statuses, children, every in-flight reconcile still on a live object of its own incarnation) holds in every state of every run |
| Preservation.StepLocal | internal/controller/opnode_controller.go:70-188 | each micro-step of either reconciler keeps the invariant of its object, whatever the call's fate |
| Safety.WritesHitTheirIncarnation | internal/controller/opnode_controller.go:84-95 | in every run, a step that writes a status or a child finds the object it started from: same UID, finalizer held; the re-read by name cannot hit a successor |
| Safety.OperatorWrites | internal/controller/opnode_controller.go:478-527 | the only writes to objects are the operator's own finalizer and a status based on the stored version, of the same incarnation |
| Safety.NoLostUpdates | internal/controller/opnode_controller.go:89-95 | in every run no step changes a spec, a deletion mark or a foreign finalizer of any object, and it removes only one that is deleting and waits for nobody else |
| Safety.ObservedGenerationIsTrue | internal/controller/opnode_controller.go:97-109 | a written OpNode status observes a generation the object has had, and ConfigurationValid is True exactly if validation accepts the spec of that generation, however many edits landed since |
| Safety.ObservedGenerationNeverDecreases | internal/controller/opnode_controller.go:171-174 | between any two states of a run, within one incarnation, the observed generation does not decrease and the history only grows |
| Safety.PhaseFollowsConditions | internal/controller/opnode_controller.go:97-187 | Running iff all six conditions are True, Pending iff NetworkReady is the first that is not, otherwise Error; Initializing and Stopped are never stored |
| Waiting.RunningWasReady | internal/controller/opnode_controller.go:111-139 | in every run: if an OpNode is Running for some generation, the network that the spec of that generation refers to (in the OpNode's namespace unless another is given) was stored and Ready at some moment of the run |
| Verdicts.WaitsForNetwork | internal/controller/opnode_controller.go:111-139 | in every run: the step from the fetch of the network leads to the Secrets iff the call is answered and the network under the reference is Ready at that moment; otherwise the store is untouched and Pending with NetworkReady False, or Error with NetworkReference False, is to be written |
| Verdicts.NetworkVerdict | internal/controller/opnode_controller.go:111-139 | the conditions, phase and interval after each answer, all other conditions as before |
| Verdicts.WithoutNetworkWaits | internal/controller/opnode_controller.go:97-139 | an undisturbed reconcile of a valid OpNode whose network is not Ready (or missing) stores Pending (Error) with the condition that says so, leaves Secrets, StatefulSets and Services as they were, and returns after 1 (2) minutes |
| Verdicts.InvalidStops | internal/controller/opnode_controller.go:97-107 | an undisturbed reconcile of an invalid OpNode stores Error with the complaint and changes nothing else |
| Verdicts.DeletionReleases | internal/controller/opnode_controller.go:444-457 | an undisturbed reconcile of a deleting object takes the operator's own finalizer off, and the object is gone iff it was the last |
| Verdicts.StartDecides | internal/controller/opnode_controller.go:70-82 | a reconcile goes on iff it finds an object of its kind, is done if there is none and fails otherwise |
| Verdicts.FinalizerFirst | internal/controller/opnode_controller.go:84-95 | before anything else the operator's own finalizer is taken off a deleting object, or put on one that lacks it |
| Verdicts.FinalizerDecides | internal/controller/opnode_controller.go:451-453 | the finalizer update succeeds iff it is answered and starts from the stored version |
| Verdicts.NodeValidated | internal/controller/opnode_controller.go:97-109 | an invalid OpNode is told its fault for its present generation, a valid one goes on to its network |
| Verdicts.SecretCallDecides | internal/controller/opnode_controller.go:260-364 | each Secret call goes on iff the store grants it: an existing Secret is left alone, a missing one made, the P2P Secret looked at iff its key is to be generated; a failure is Error with SecretsReady False |
| Verdicts.SecretHoldsKey | internal/controller/opnode_controller.go:295-315 | a Secret the operator makes holds the generated key under its one entry and belongs to the OpNode |
| Verdicts.SetCallDecides | internal/controller/opnode_controller.go:367-392 | the same of the StatefulSet calls: an update is granted iff the version read is the stored one and nothing fixed changes |
| Verdicts.ServiceCallDecides | internal/controller/opnode_controller.go:395-441 | the same of the Service calls; the last one says Running, and the node information says connected and keeps chain head and block numbers |
| Verdicts.StatusDecides | internal/controller/opnode_controller.go:478-527 | a status write succeeds iff it is answered and starts from the stored version; a conflict starts over until five writes are used up, any other answer ends it |
| Verdicts.NetworkValidated | internal/controller/optimismnetwork_controller.go:92-102 | an invalid network is told its fault and keeps the generation it observed, a valid one goes on to the L1 test |
| Verdicts.DialDecides | internal/controller/optimismnetwork_controller.go:104-114 | discovery is asked iff the L1 endpoint answers; otherwise Error with L1Connected False, again in 2 minutes |
| Verdicts.DiscoverDecides | internal/controller/optimismnetwork_controller.go:116-137 | found addresses are recorded and lead to exactly the ConfigMaps to be discovered, else to Ready; none found is Error with ContractsDiscovered False, again in 5 minutes |
| Verdicts.ConfigCallDecides | internal/controller/optimismnetwork_controller.go:137-156 | a ConfigMap call goes on iff the store grants it; otherwise nothing but the phase changes, to Error, again in 2 minutes |
| Verdicts.ConfigHolds | internal/controller/optimismnetwork_controller.go:312-401 | a ConfigMap written has the chain IDs of the spec, and the portal and system config that were found |
| Safety.ReadyObservesAValidSpec | internal/controller/optimismnetwork_controller.go:97-155 | in every run Ready vouches for the spec of the observed generation; only Error and Ready are ever written |
| Lineage.EveryChildDescends | internal/controller/opnode_controller.go:367-441 | in every state of every run each child at the names of an id, whoever owns it, was made by some object of that id, and no two objects share a UID |
| Lineage.SetsAreDesired | pkg/resources/statefulset.go:33-111 | every StatefulSet ever stored is the desired one of some validated spec and selects the pods it makes |
| Lineage.ServicesKeepApart | pkg/resources/service.go:28-69 | in every run no Service of an OpNode, whoever owns it, selects the pods of the StatefulSet of an OpNode of another name |
| Leftovers.ClaimsAreSafeIff | internal/controller/opnode_controller.go:141-163 | of every stored object at rest in every run: the claims about its children (below) hold for as long as it lives iff they hold now and no child endangering them has an owner that is gone |
| Leftovers.SafeForLife | internal/controller/opnode_controller.go:141-163 | the same in the direction of use: from such a world on, the claims hold in every later one of the same object, also in the middle of a reconcile |
| Leftovers.EndangeredBreaks | internal/controller/opnode_controller.go:386-391 | the other direction: from every world with an endangering leftover a run leads to one where a claim about the same object fails |
| Claims.CleanStart | internal/controller/opnode_controller.go:84-95 | an object created where no child of an earlier one is left starts safe |
| Claims.NoHeirHasClaims | internal/controller/opnode_controller.go:141-163 | and has the claims at every moment of its life |
| Leftovers.ChildrenAgree | internal/controller/opnode_controller.go:141-163 | of a safe OpNode, whenever the StatefulSet exists: the operator's Secrets it mounts exist, and selector, pod labels and the Service's selector agree |
| Leftovers.ServiceNeedsSet | internal/controller/opnode_controller.go:149-163 | of a safe OpNode: a Service exists only beside the StatefulSet, and both are owned by that OpNode |
| Leftovers.ReadyNetworkIsReady | internal/controller/optimismnetwork_controller.go:97-155 | a Ready network that observes its present generation has a valid spec, three True conditions, contracts on record and, if it is safe, the ConfigMaps it asks for with the chain IDs of the spec |
| Departure.LiveSecretsStay | internal/controller/opnode_controller.go:277-319 | in every run a Secret that a stored OpNode, or nobody, owns stays as it is for as long as the OpNode lives |
| Claims.CollectorSparesIff | internal/controller/opnode_controller.go:311-315 | the collector leaves a Secret of a stored OpNode alone iff that OpNode, or nobody, owns it |
| Inheritance.OrphansAreReachable | internal/controller/opnode_controller.go:444-457 | for every valid OpNode and network spec a run leads to the OpNode created again with its Secret, StatefulSet and Service all orphaned |
| Inheritance.HeirsMayLackSecrets | internal/controller/opnode_controller.go:386-391 | from the empty store to a StatefulSet whose Secret is gone |
| Inheritance.HeirsMayLackSets | internal/controller/opnode_controller.go:395-421 | from the empty store to a Service without its StatefulSet |
| Inheritance.HeirsMayMisroute | internal/controller/opnode_controller.go:414-420 | and on to an OpNode that is Running for its present spec with a Service that does not select its pods |
| Inheritance.OtherServiceNeverSettles | internal/controller/opnode_controller.go:414-420 | a reconcile keeps the selector of the Service it finds; if that is not the wanted one the OpNode runs and never settles |
| Inheritance.OrphanConfigsAreReachable | internal/controller/optimismnetwork_controller.go:419-433 | for every valid network spec with automatic rollup configuration a run leads to the network created again with that ConfigMap orphaned |
| Inheritance.HeirsMayLackConfigs | internal/controller/optimismnetwork_controller.go:403-416 | from the empty store to a network that is Ready for its present spec and lacks a ConfigMap this asks for |
| Safety.SecretsAreWriteOnce | internal/controller/opnode_controller.go:277-364 | no micro-step in any state changes or removes an existing Secret, also when a Get misses and the racing Create fails |
| Safety.KeysNeverChange | internal/controller/opnode_controller.go:277-364 | over every run a Secret keeps its data as long as the collector does not take it |
| Safety.ReconcilesDoNotInterfere | internal/controller/opnode_controller.go:367-421 | a step of one reconcile leaves the object, the children and the thread of every other OpNode or OptimismNetwork as they are |
| Safety.EveryReconcileEnds | internal/controller/opnode_controller.go:478-527 | in every run, under every schedule of conflicts and faults, any stretch with nineteen steps of one reconcile contains its end |
| Invariants.DerivedNames | internal/controller/opnode_controller.go:278 | for all strings the names of Secrets and ConfigMaps determine the name they are derived from, and never meet within one kind |
| Invariants.StepFrame | internal/controller/optimismnetwork_controller.go:266-310 | a step of one id leaves every other id's object and children untouched |
| Convergence.Converges | internal/controller/opnode_controller.go:70-188 | in every reachable state a valid OpNode with a Ready network and updatable children is settled (Running, six conditions True, children as desired) after at most two undisturbed reconciles, the second needed exactly if the finalizer is missing |
| Convergence.OneReconcileSettles | internal/controller/opnode_controller.go:97-188 | the same from any state, for an OpNode that has its finalizer |
| Convergence.FirstReconcileAddsFinalizer | internal/controller/opnode_controller.go:89-95 | without the finalizer a reconcile adds it, changes nothing else and asks to be run again |
| Convergence.ReconcilingAgainChangesOnlyTimes | internal/controller/opnode_controller.go:367-441 | from a settled state a reconcile changes transition times and the object's resource version and nothing else in the store, and the state is settled again |
| Convergence.OtherSetNeverSettles | internal/controller/opnode_controller.go:386-391 | if the API cannot take the update of the StatefulSet, the OpNode goes to Error, neither child is touched and the obstacle stays |
| NetworkConvergence.NetworkBecomesReady | internal/controller/optimismnetwork_controller.go:65-155 | from any state, one undisturbed reconcile of a valid network with its finalizer, L1 reachable and contracts found makes it Ready with the contracts found and the time on record, each ConfigMap the spec asks for stored with the chain IDs of the spec and the addresses found, every other ConfigMap and object untouched |
| NetworkConvergence.ConfigMadeIff | internal/controller/optimismnetwork_controller.go:266-310 | a ConfigMap that was not there is made iff it is the rollup or the genesis ConfigMap of that network and the spec wants that one discovered |
| NetworkConvergence.RollupVolumeIff | pkg/resources/statefulset.go:425-435 | the ConfigMap a pod mounts is brought about by a reconcile of its network iff that is in the same namespace and discovers its rollup configuration |
| NetworkErrors.ErrorsTell | internal/controller/optimismnetwork_controller.go:92-144 | at every step of a network reconcile in every run: an Error to be written leaves the observed generation, and has all conditions True iff a ConfigMap call failed |
| NetworkErrors.LostConfigMap | internal/controller/optimismnetwork_controller.go:137-144 | an input: with one lost ConfigMap read the stored status is Error with all conditions True and the generation it had |
| NetworkConvergence.RunningIsReachable | internal/controller/opnode_controller.go:70-188 | for every valid OpNode and network spec that belong together there is a run from the empty store to the settled OpNode with children of its own, so the premises of convergence can be met |
| Convergence.AloneIsRun | internal/controller/opnode_controller.go:70-188 | an undisturbed reconcile is a run in which only its thread moves |
| Cluster.UpdateStatusWithRetry | internal/controller/opnode_controller.go:478-527 | at most five status writes, all but the last answered with a conflict; success iff the last one was accepted; makes exactly the machine's steps under every schedule |
| Cluster.UpdateFinalizers | internal/controller/opnode_controller.go:451-453 | one Update of the working copy; an error unless it is accepted |
| Cluster.ReconciledIsRun | internal/controller/opnode_controller.go:70-188 | what a Reconcile method reaches from a world of a run is again a world of a run, so every theorem about runs holds of it |
| NodeController.OpNodeReconciler.Reconcile | internal/controller/opnode_controller.go:70-107 | makes exactly the micro-steps of one reconcile of the machine, interleaved with whatever the others do, and returns its outcome |
| NodeController.OpNodeReconciler.ReconcileValid | internal/controller/opnode_controller.go:109-139 | the same for the part from fetching the network on |
| NodeController.OpNodeReconciler.ReconcileChildren | internal/controller/opnode_controller.go:141-188 | the same for the child stages, the shared exit and the requeue interval |
| NodeController.OpNodeReconciler.HandleDeletion | internal/controller/opnode_controller.go:444-457 | removes the operator's finalizer and nothing else |
| NodeController.OpNodeReconciler.ReconcileSecrets | internal/controller/opnode_controller.go:260-274 | the JWT Secret, then the P2P Secret exactly if it is to be generated |
| NodeController.OpNodeReconciler.ReconcileJWTSecret | internal/controller/opnode_controller.go:277-319 | get, and create only if missing |
| NodeController.OpNodeReconciler.ReconcileP2PSecret | internal/controller/opnode_controller.go:322-364 | get, and create only if missing |
| NodeController.OpNodeReconciler.ReconcileStatefulSet | internal/controller/opnode_controller.go:367-392 | get, then create the desired StatefulSet or overwrite spec, labels and annotations of the one read |
| NodeController.OpNodeReconciler.ReconcileService | internal/controller/opnode_controller.go:395-421 | get, then create the desired Service or overwrite ports, type, labels and annotations of the one read |
| NetworkController.OptimismNetworkReconciler.Reconcile | internal/controller/optimismnetwork_controller.go:65-105 | makes exactly the micro-steps of one reconcile of the machine, and returns its outcome |
| NetworkController.OptimismNetworkReconciler.ReconcileValid | internal/controller/optimismnetwork_controller.go:107-130 | the same for the L1 test and discovery |
| NetworkController.OptimismNetworkReconciler.ReconcileDiscovered | internal/controller/optimismnetwork_controller.go:130-156 | the same from the discovered addresses on; a failed final status write is an error |
| NetworkController.OptimismNetworkReconciler.ReconcileConfigMaps | internal/controller/optimismnetwork_controller.go:266-310 | the rollup ConfigMap, then the genesis ConfigMap, each exactly if it is to be discovered; the first failure ends it |
| NetworkController.OptimismNetworkReconciler.CreateOrUpdateConfigMap | internal/controller/optimismnetwork_controller.go:403-416 | get, then create or overwrite the data |
| NetworkController.OptimismNetworkReconciler.HandleDeletion | internal/controller/optimismnetwork_controller.go:419-433 | removes the operator's finalizer and nothing else |
| Conditions.ConditionList.SetCondition | pkg/utils/conditions.go:32-61 | the slice holds the list with the first entry of that type overwritten but for its generation, or one appended; a known type changes the array in place |
| Conditions.ConditionList.GetCondition | pkg/utils/conditions.go:70-77 | the first condition of the type, if there is one |
| Conditions.LastWriteWins | pkg/utils/conditions.go:32-77 | any sequence of calls on any list, duplicates included, reads as a last-write-wins map that keeps each generation |
| Conditions.SetAllTypes | pkg/utils/conditions.go:40-60 | order is kept, exactly the new types are appended, once each, and a list without duplicate types stays so |
| Conditions.SetAllKeeps | pkg/utils/conditions.go:40-51 | every entry keeps its generation, and an entry of a type nobody sets is unchanged |
| StatusCopy.CopyStatus | internal/controller/opnode_controller.go:487-524 | the copy has the value the machine writes, keeps the stored node information if the source has none, and shares no mutable object with its source |
| StatusCopy.HandCopyIsDeepCopy | internal/controller/opnode_controller.go:504-524 | the hand-written copy has the value of the generated one exactly if the source has node information or the stored status has none; otherwise it differs in the node information only, which stays |
| StatusCopy.OpNodeStatus.DeepCopyInto | api/v1alpha1/zz_generated.deepcopy.go:684-698 | the same value, nil lists staying nil, and only new objects behind it |
| StatusCopy.NodeInformation.DeepCopyInto | api/v1alpha1/zz_generated.deepcopy.go:294-306 | the same value, and only new objects behind it |
| StatusCopy.UpdateNodeStatus | internal/controller/opnode_controller.go:424-441 | engine connected, no peers, not syncing; creates what is missing in place and keeps the chain head and the block numbers |
| Discovery.ContractDiscoveryService.DiscoverContracts | pkg/discovery/discovery.go:35-91 | a hit returns an unchanged record that uncached discovery produced for the same key no longer than its timeout ago; a miss gives each method its due (next rows), stamped with the time, caches only successes and for the spec's timeout if positive; no older record is written to |
| Discovery.ContractDiscoveryService.Produce | pkg/discovery/discovery.go:47-75 | a new record. Method auto: the system config of the spec if it has one and the L1 endpoint answers, else the published addresses of a known network, else an error; well-known: those or an error; manual: the addresses of the spec, field by field; any other method: an error |
| Discovery.UncachedIsOwed | pkg/discovery/discovery.go:35-127 | the same of the functions the cache's history speaks of |
| Discovery.WellKnownIs | pkg/discovery/discovery.go:166-216 | a network is known by its name or its chain ID, mainnet before sepolia before base |
| Discovery.ContractDiscoveryService.Remember | pkg/discovery/discovery.go:80-88 | one cache entry, valid from the insertion for the spec's timeout if positive and the default otherwise |
| Discovery.ContractDiscoveryService.AutoDiscoverContracts | pkg/discovery/discovery.go:94-127 | system config if given and reachable, then well-known addresses, else an error |
| Discovery.ContractDiscoveryService.GetWellKnownAddresses | pkg/discovery/discovery.go:166-216 | a new record of the first network whose name or chain ID fits |
| Discovery.ContractDiscoveryService.GetManualAddresses | pkg/discovery/discovery.go:219-233 | a new record of the configured addresses, if there are any |
| Discovery.ContractDiscoveryService.IsCacheExpired | pkg/discovery/discovery.go:236-238 | expired iff the clock is past the expiry time |
| Discovery.ContractDiscoveryService.ClearCache | pkg/discovery/discovery.go:241-243 | the cache is empty and records handed out are unchanged |
| Discovery.KeysCollide | pkg/discovery/discovery.go:40 | two networks share a key iff name and chain ID agree, or the IDs are opposite and the names differ by one trailing dash |
| Discovery.KeyInjective | pkg/discovery/discovery.go:40 | between non-negative chain IDs the key determines name and chain ID |
| Images.DefaultImages | pkg/config/images.go:19-25 | the five default images, written out |
| Images.ImageConfig.ValidateImageCompatibility | pkg/config/images.go:67-99 | accepts iff the op-node and op-geth tags are non-empty and node, batcher and proposer tags agree when all are there, in whatever order the matrix is visited |
| Images.GetCompatibleOpGethVersion | pkg/config/images.go:102-127 | "latest" for "latest" and the default for every other string, in whatever order the matrix is visited |
| Images.ImageConfig.ApplyVersionSet | pkg/config/images.go:139-155 | each component with a version in the set gets that image and the others keep theirs |
| Images.BuildImageConfig | pkg/config/images.go:189-232 | component override over global version over version set over default; an unknown set is an error |
| Images.TagOfImage | pkg/config/images.go:158-170 | the tag is what follows the last colon, whatever stands before it, and nothing without a colon |
| Images.DefaultsAreIncompatible | pkg/config/images.go:19-25 | the default images fail the version check and the "latest" set passes |
| Strings.JoinStrings | pkg/resources/statefulset.go:522-531 | the comma-joined list, which splitting undoes if it is not empty and its items have no comma |
| Strings.SplitJoin | pkg/resources/statefulset.go:522-531 | splitting undoes joining on every non-empty list of separator-free items |
| Strings.ItoaRoundTrip | pkg/resources/statefulset.go:152 | reading a printed number gives the number, negative ones included |
| Args.ReadBackAll | pkg/resources/statefulset.go:149-353 | splitting each printed argument at its first `=` finds for every flag exactly its values, in order |
| Args.FlagNamesDiffer | pkg/resources/statefulset.go:149-353 | the flag names are distinct and have no `=` |
| Decode.GethSays | pkg/resources/statefulset.go:149-201 | read back from the arguments of op-geth, every flag has exactly the values of a table over the spec |
| Decode.NodeSays | pkg/resources/statefulset.go:282-353 | the same for op-node |
| Decode.BaseDecodes | pkg/resources/statefulset.go:144-162 | data directory, network ID, sync mode, L1 URL, rollup file and network name are recovered, by the literal flag names |
| Decode.SequencerDecodes | pkg/resources/statefulset.go:328-333 | op-node is told to sequence iff the sequencer section is enabled, and the confirmation depth iff a block time is given |
| Decode.SharedDecodes | pkg/resources/statefulset.go:336-355 | the logging and metrics settings of the network are recovered |
| Decode.HttpDecodes | pkg/resources/statefulset.go:164-178 | the HTTP settings are recovered from the arguments iff no list item has a comma |
| Decode.WsDecodes | pkg/resources/statefulset.go:181-195 | the WebSocket settings are recovered iff no list item has a comma |
| Decode.AuthDecodes | pkg/resources/statefulset.go:198-203 | the engine API settings are recovered |
| Decode.RpcDecodes | pkg/resources/statefulset.go:297-304 | the RPC settings are recovered |
| Decode.P2pDecodes | pkg/resources/statefulset.go:307-328 | the P2P settings are recovered, static peers with order and multiplicity |
| Decode.SingleValued | pkg/resources/statefulset.go:149-353 | every flag but the static peers is given at most once to each container |
| Wiring.EngineIsReached | pkg/resources/statefulset.go:283-286 | the `--l2` URL of op-node has the port op-geth serves the engine API on |
| Wiring.JwtIsShared | pkg/resources/statefulset.go:198-203 | both containers read the same JWT file; op-geth is told of it iff its engine API is configured |
| Wiring.JwtFileIsTheSecret | pkg/resources/statefulset.go:414-424 | that file is the entry `jwt` of the Secret `<name>-jwt`, through the volume and the mount of either container |
| Wiring.P2pFileIsTheSecret | pkg/resources/statefulset.go:437-459 | the P2P key file op-node is told of is the entry `private-key` of the generated or the named Secret, through volume and mount |
| Lineage.SecretsHaveTheirEntries | internal/controller/opnode_controller.go:305-307 | in every run each JWT or P2P Secret the operator made has exactly the entry its file is named for |
| Wiring.SequencerReachesItself | pkg/resources/statefulset.go:534-543 | the endpoint of a validated sequencer is 127.0.0.1 on its HTTP port, whatever L2RpcUrl or SequencerRef say; with HTTP enabled that is its `--http.port`, otherwise no such flag is given |
| Wiring.ReplicaReaches | pkg/resources/statefulset.go:544-574 | the endpoint of an OpNode that does not sequence: its L2RpcUrl if there is one; else port 8545 of the sequencer it refers to, by the full name iff that is in another namespace; else port 8545 of `<network>-sequencer` |
| Wiring.ReplicaMaySequence | internal/controller/opnode_controller.go:206-227 | any sequencer section passes validation on a replica, and op-node then sequences iff it is enabled |
| Wiring.ServiceMatchesFlags | pkg/resources/service.go:104-175 | the default ports geth-http, geth-ws, node-rpc and node-p2p exist iff the matching flags do, with equal numbers, geth-p2p iff the spec has a P2P port, and no name occurs twice |
| Wiring.MetricsPortIsFixed | pkg/resources/service.go:165-172 | the metrics port agrees with the flag iff metrics are enabled on the default port |
| Wiring.MountsResolve | pkg/resources/statefulset.go:90-105 | every mount of both containers is provided by a pod volume or the claim |
| Wiring.PathsAreMounted | pkg/resources/statefulset.go:216-220 | the data directory op-geth is told is mounted; op-node is told of the P2P key iff P2P is on and the key is mounted, which it is iff one is generated or named |
| Manifests.SelectsIff | pkg/resources/service.go:29-37 | the Service of one OpNode selects the pods of another iff they agree on name, network name and node type |
| Manifests.CommonLabels | pkg/resources/statefulset.go:37-45 | the four labels that are the same for all |
| Manifests.PodSays | pkg/resources/statefulset.go:68-93 | one pod of two containers with the default images, under the name of the OpNode |
| Manifests.ClaimSays | pkg/resources/statefulset.go:47-63 | size, class and access mode of the claim are those of the spec where it has them, and the defaults elsewhere |
| Manifests.RollupFileIsTheConfigMap | pkg/resources/statefulset.go:425-435 | the rollup file op-node is told of is `rollup.json` of the ConfigMap `<network>-rollup-config`, through volume and mount |
| Manifests.ServiceSays | pkg/resources/service.go:39-66 | type and annotations are those of the spec where it has them; the selector is the StatefulSet's pod labels |
| Manifests.CustomPortsSay | pkg/resources/service.go:76-94 | custom ports keep order, name and number; without a target they go to the same number, without a protocol they are TCP |
| Manifests.DefaultPortsAreOwn | pkg/resources/service.go:104-175 | every default port is TCP and goes to its own number |
| Assembly.CreateOpGethContainer | pkg/resources/statefulset.go:144-220 | grown step by step, the container is the one of the specification, arguments in order |
| Assembly.CreateOpNodeContainer | pkg/resources/statefulset.go:282-369 | the same for op-node |
| Assembly.StaticFlags | pkg/resources/statefulset.go:316-320 | one argument for each static peer, in order |
| Assembly.CreateVolumes | pkg/resources/statefulset.go:414-462 | the volumes of the specification |
| Assembly.CreateOpNodeStatefulSet | pkg/resources/statefulset.go:33-111 | the StatefulSet of the specification, defaults filled in |
| Assembly.BuildServicePorts | pkg/resources/service.go:72-101 | custom ports with their gaps filled in, or the default ports |
| Assembly.BuildDefaultServicePorts | pkg/resources/service.go:104-175 | the default ports, in order |
| Assembly.CreateOpNodeService | pkg/resources/service.go:28-69 | the Service of the specification and its annotations |

## Left out

- Assembly.CreateOpGethContainer: command, resources, container ports, pull policy and probes are not modelled; they are constants but for the resources, which are copied from the spec.
- Assembly.CreateOpNodeContainer: the same.
- Assembly.CreateOpNodeStatefulSet: the pod security context is not modelled.
- Stale reads: a Get answers with the current version; an informer cache may answer with an older one.
- Work queue, backoff delays, watches and the manager set-up: only the bounded number of retries is kept.
- Ethereum RPC: the dial and the chain ID check are one yes-or-no input, and so is the dial inside discovery.
- Randomness of the generated keys: any string.
- The timing of garbage collection: it may happen at any time after the owner is gone.
- Outside edits or deletions of StatefulSets, Services and derived ConfigMaps, and outside deletion of Secrets.
- Templates of the rollup and genesis files beyond their chain ID and address slots, probes, resource quantities, security contexts and the fixed container port tables: constants or single-branch defaults.
- OpBatcher, OpProposer and OpChallenger: empty scaffolds.
- The lazy creation of the discovery service by the network controller: the service is modelled on its own, and the machine takes any discovery result.
- `SetConditionTrue`, `SetConditionFalse` and `SetConditionUnknown`: one-line calls of `SetCondition`.
- Texts of error messages other than the validation messages of the conditions: inputs of the step that fails.
- Storage quantities are integers: the text forms of a quantity are not part of this model.
