# Verified model of the kcp operator

The operator turns RootShards, Shards, FrontProxies, VirtualWorkspaces and Kubeconfigs into Certificates, Secrets,
compiled objects and Deployments. Most of it is plumbing. This project models the parts where the order of events,
failures in between, or sharing in memory decide what comes out, and proves what they keep.

`dafny verify dfyconfig.toml` checks everything.

## The protocols

**RBAC provisioning** (`RbacModel`, `RbacSafety`, `RbacNaming`, `RbacConvergence`, `RbacStale`, `RbacController`). A Kubeconfig with
authorization gets ClusterRoleBindings in a workspace of kcp, and must take them along when it goes. The step machine has
one step per API call, per action of the outside world, and per failure or crash; the user may edit or delete the object
between any two calls of a reconcile, which works on the snapshot it began with. Patches are JSON merge patches (section 2
of RFC 7396): the finalizer list is replaced wholesale. Proved over all runs: no binding outlives its Kubeconfig, every
binding of a living one is in the recorded workspace and under the finalizer, other Kubeconfigs' bindings are never
touched, and three undisturbed reconciles reach a fixed point, with the roles bound where the fields of the spec say
(`ThreeReconcilesBindWhereAsked`); one that stops short of it has changed the object and so queues the key again. Three statements one would like turned out false of the code:

- Deleting a Kubeconfig gets stuck for good if `Status.Authorization` is still nil, which a deletion right after the first
  reconcile produces (`DeletionProgressesIffStatusSet`, `EarlyDeletionGetsStuck`, `StuckForever`).
- A reconcile that starts from an old copy of the object can leave a binding behind. Every Kubeconfig with roles to bind
  can run into it (`StaleSnapshotLeaks`), and `SnapshotLeaksIffHarmful` tells the harmful copies from the harmless ones:
  those whose first steps bind although finalizer or record are missing, or give up a workspace that still holds bindings.
- Finalizers of others do not survive the controller's patches unless the snapshot already had them
  (`ForeignFinalizersSurviveIff`, `LateFinalizerIsLost`).

Assumptions: one worker per key; the UID, finalizer and `Status.Authorization` in the snapshot are current (except in
`RbacStale`); only this controller writes its finalizer and `ProvisionedCluster`; UIDs are not reused and contain no colons
(`UidsCollideIff` says which could otherwise share binding names); a workspace name means the same workspace throughout,
so `Spec.Target` is not edited; other controllers of the operator label and name their bindings by the same scheme.

**Shard finalizer** (`ShardFinalizer`, `ShardController`). The same kind of machine for a Shard, whose finalizer guards
the kcp Shard object in the root workspace. Nothing is created before the finalizer is in place, and it goes only after the
kcp object was deleted or not found, or the RootShard could not be fetched. The code takes *every* error of that fetch for
absence, so one failing read of an existing RootShard loses the cleanup (`TransientFailureOrphans`);
`OneReconcileReleases` says exactly when a cleanup leaves the kcp object behind. Nothing stops the workload before the object
is gone, so it may also register again after its cleanup (`LateRegistrationOrphans`); there is no third way to an orphan
(`NoOrphanOnAnyRun`). Assumed: the presence of the finalizer in the snapshot is current.

**Shard list propagation** (`ShardPropagation`, `ShardPublishing`, `ShardSettling`, `ShardLosses`, `RootShardChildren`). A Shard event wakes
the RootShard alone; the RootShard's write of `Status.Shards` wakes everybody else, and every write wakes the key it came
from. When nothing is queued any more, the recorded list and all published lists agree, provided that every step was safe
(`QuiescenceImpliesAgreement`), and whatever gets published on any run was read by that very reconcile, behind a gate read
while the certificates were ready (`PublishedBehindOpenGate`). Three kinds of steps can be unsafe:

- a change of the shards that returns to the recorded list while a ready consumer that nothing wakes holds another one,
  or a change whose event is dropped because the handler fails to get the RootShard;
- a consumer that fails to fetch the RootShard, which ends without an error: only the first such failure in a row changes
  its RootShard condition and so queues it again (`FailingFetchesLeaveStale`);
- a write of `Status.Shards` whose event is dropped because a handler fails to list its consumers.

`SafeStep` says when, and that is exact for agreement itself: after an unsafe step some continuation ends in quiet
disagreement, after a safe one no undisturbed continuation does (`AgreementCertainIffSafe`). Assumed: the RootShard exists,
and every Shard in the namespace refers to some RootShard; without a reference, which the API accepts, the listing and the
Shard event handler dereference nil (`GetRootShardChildren`), and no controller that lists settles until it is repaired.

**Publish gate** (`PublishGate`). Compiled objects are written once all certificates are ready. The gate looks at a list
filled as a side effect. If the certificate phases ended well, the gate means what it says
(`OpenGateMeansAllReady`); for the controllers that go on after an error it can be trusted exactly if no certificate was
missed (`TrustworthyIffAllCaptured`), and after an early return it opens on an empty cluster (`SkippedPhasesOpenTheGate`).

## The renderers

**Revision labels** (`RevisionLabels`): the memoised traversal of a pod's references equals a plain set specification, in
any order and for any mix of optional and mandatory references, if truncated hashes do not collide.
**Label maps** (`DeploymentLabels`): selector, metadata and pod template start out as one map object; it is never written,
and the selector matches the pods for every user template.
**Resources** (`ResourceOverrides`): overrides are copied into package-level default maps, so they add up over the process.
Documented as overriding the defaults of its own container (sdk/apis/operator/v1alpha1/virtualworkspace_types.go:191-192),
an override has that effect if and only if no other override left another value (`IntendedIffUndisturbed`).
**Virtual-workspace pods** (`VirtualWorkspacePod`, `VirtualWorkspaceSecrets`): volumes, mounts and the closure that extends
the volume list, when a container sees the Secret the operator meant it to see, and which Secret that is at which path.
**Shard pods** (`ShardPod`, `ShardPodArguments`, `ShardPodNames`, `ShardPodUnique`): a flag is passed exactly if its feature
is configured, every file named by an argument lies in a mounted directory
that shows the right Secret, for every combination of features; and exactly which shard names make two volumes or mounts
repeat, which the API server does not accept.
**Certificate templates** (`CertificateTemplates`): idempotence, what survives, when DNS names are replaced, and that an
annotation once set by a template keeps its first value (`AnnotationInForceIffNotSetBefore`).
**Conditions** (`Conditions`): one per type, transition times, and when a new message is shown at all (`MessageShownIff`).

`Ordering` holds string order and sorted listing, `ApiCalls` how a call can end, `Wrappers` the usual option and result types.

## Model

| member | source | states |
|---|---|---|
| RbacSafety.NextKeepsInv | pkg/controller/kubeconfig-rbac/controller.go:85-264 | the invariant (owned bindings only in the recorded workspace, a recorded workspace implies the finalizer, plus what each pending call relies on) survives every step: edit, deletion, successful, failed or lost call, crash |
| RbacSafety.CallKeepsInv | pkg/controller/kubeconfig-rbac/controller.go:196-296 | in particular it survives each API call of the controller, whichever way it ends |
| RbacSafety.NoLeakOnAnyRun | pkg/controller/kubeconfig-rbac/controller.go:196-249 | on every run no binding carries the UID of a Kubeconfig that is gone, and the living one's bindings are all in the recorded workspace with the finalizer set |
| RbacSafety.ForeignFinalizersSurviveIff | pkg/controller/kubeconfig-rbac/controller.go:266-296 | the finalizers of others survive a finalizer patch if and only if the snapshot already had them; what is left of them is the snapshot's view |
| RbacSafety.LateFinalizerIsLost | pkg/controller/kubeconfig-rbac/controller.go:266-282 | a finalizer put on between the first read and the patch is lost, for every Kubeconfig with authorization |
| RbacStale.RunKeepsSafe | pkg/controller/kubeconfig-rbac/controller.go:85-264 | an invariant that does not ask how fresh the snapshot is survives every run |
| RbacStale.SnapshotLeaksIffHarmful | pkg/controller/kubeconfig-rbac/controller.go:85-142 | for any snapshot with the living object's UID, some run that starts a reconcile from it leaks a binding if and only if its first steps would bind without stored finalizer and record, record or clear a workspace while bindings exist in another, or take the finalizer off while any exist |
| RbacStale.StrayCanLeak | pkg/controller/kubeconfig-rbac/controller.go:196-249 | a binding outside the recorded workspace, or of an object without the finalizer, leaks on some run whose reconciles all read the stored object, unless the object is being deleted with a nil status |
| RbacStale.StuckCanLeak | pkg/controller/kubeconfig-rbac/controller.go:214-218 | in that stuck state it leaks with a reconcile that has not seen the deletion mark |
| RbacStale.StaleSnapshotLeaks | pkg/controller/kubeconfig-rbac/controller.go:66-142 | every Kubeconfig with roles to bind has a run on which a version stored earlier, used as snapshot of a later one, can leak a binding |
| RbacNaming.BindingNameInjective | internal/resources/kubeconfig/rbac.go:40-45 | UID and role are determined by the binding name for colon-free UIDs, even if roles contain colons |
| RbacNaming.UidsCollideIff | internal/resources/kubeconfig/rbac.go:40-45 | in general two UIDs can share a binding name if and only if one of them, followed by a colon, begins the other |
| RbacNaming.RunKeepsNames | internal/resources/kubeconfig/rbac.go:30-58 | along every run labelled bindings carry the name made from their label's UID and their role, and delete loops hold only own names |
| RbacNaming.CallsLeaveOthersAlone | pkg/controller/kubeconfig-rbac/controller.go:144-249 | at any moment of any run the next call, however it ends, leaves the bindings labelled for every other Kubeconfig as they are |
| RbacConvergence.BindingsBecomeExact | pkg/controller/kubeconfig-rbac/controller.go:144-194 | with finalizer and workspace recorded, one undisturbed reconcile leaves exactly the configured roles bound, in that workspace only, and a further one changes nothing |
| RbacConvergence.ReconcileGetsCloser | pkg/controller/kubeconfig-rbac/controller.go:103-141 | each undisturbed reconcile strictly decreases the distance to rest and keeps the spec; rest is a fixed point; a reconcile that ends short of rest has changed the stored object, which requeues it |
| RbacConvergence.ThreeReconcilesReachRest | pkg/controller/kubeconfig-rbac/controller.go:103-194 | from any state of any run three undisturbed reconciles reach rest: exactly the configured bindings and the finalizer, or no bindings and no finalizer without authorization |
| RbacConvergence.ThreeReconcilesBindWhereAsked | sdk/apis/operator/v1alpha1/kubeconfig_types.go:138-150 | the same told from the fields of the spec: after three undisturbed reconciles the listed roles are bound to the object's group in spec.targetWorkspace if set, else in the authorization's cluster if set, else in root, nowhere else, and the status records it; without authorization nothing is bound |
| RbacConvergence.ListingMarks | pkg/controller/kubeconfig-rbac/controller.go:153-178 | a listing marks every owned binding for deletion when the workspace is given up, and otherwise exactly those whose role the spec does not list, so no wanted binding is removed in between |
| RbacConvergence.LostBindingComesBack | pkg/controller/kubeconfig-rbac/controller.go:144-194 | a binding that others delete or take over is put back by one undisturbed reconcile, which restores exactly the world before |
| RbacConvergence.TwoReconcilesAreNotEnough | pkg/controller/kubeconfig-rbac/controller.go:119-141 | three is the exact number for a new object with roles to bind |
| RbacConvergence.DeletionProgressesIffStatusSet | pkg/controller/kubeconfig-rbac/controller.go:196-218 | in any reachable deleting state one undisturbed reconcile drops the finalizer, leaving no binding, if and only if Status.Authorization is not nil |
| RbacConvergence.EarlyDeletionGetsStuck | pkg/controller/kubeconfig-rbac/controller.go:122-133 | every Kubeconfig with authorization reaches the stuck state when deleted after its first reconcile |
| RbacConvergence.StuckForever | pkg/controller/kubeconfig-rbac/controller.go:214-218 | no run of reconciles that see the deletion mark leaves it |
| RbacController.OverhangOfListed | pkg/controller/kubeconfig-rbac/controller.go:153-178 | filtering the listed bindings by role visits exactly the owned bindings of roles no longer desired, in name order |
| RbacController.ApiServer.EnsureBinding | internal/resources/kubeconfig/rbac.go:40-58 | creating or updating a binding is the machine's pending step, with the name, label, role and group the reconciler writes |
| RbacController.ApiServer.PatchFinalizers | pkg/controller/kubeconfig-rbac/controller.go:266-296 | a finalizer patch replaces the stored list by the snapshot's with the finalizer added or removed, and is the machine's pending step |
| RbacController.KubeconfigRbacReconciler.PatchProvisionedCluster | pkg/controller/kubeconfig-rbac/controller.go:251-264 | skips the patch when the value is unchanged and otherwise continues with the server's response |
| RbacController.KubeconfigRbacReconciler.EnsureFinalizer | pkg/controller/kubeconfig-rbac/controller.go:266-282 | reports an update exactly if the finalizer was missing and the patch succeeded |
| RbacController.KubeconfigRbacReconciler.UnprovisionCluster | pkg/controller/kubeconfig-rbac/controller.go:214-249 | performs a run of the machine up to clearing the status, stops at the first error, and panics exactly on a nil Status.Authorization |
| RbacController.KubeconfigRbacReconciler.HandleDeletion | pkg/controller/kubeconfig-rbac/controller.go:196-212 | performs a run of the machine; panics exactly with the finalizer set and a nil status |
| RbacController.KubeconfigRbacReconciler.ReconcileBindings | pkg/controller/kubeconfig-rbac/controller.go:144-194 | performs the listing, delete and ensure loops as a run of the machine |
| RbacController.KubeconfigRbacReconciler.Reconcile | pkg/controller/kubeconfig-rbac/controller.go:66-142 | for every behaviour of API server and outside world a reconcile extends the run, so nothing is leaked; undisturbed it computes the reconciled world of the convergence results, which bind where the spec asks (`ThreeReconcilesBindWhereAsked`) |
| ShardFinalizer.NextKeepsInv | pkg/controller/shard/controller.go:161-375 | the finalizer invariant survives every step of the controller, the outside world and crashes |
| ShardFinalizer.NothingCreatedBeforeFinalizer | pkg/controller/shard/controller.go:161-184 | on every run Certificates, Secrets and compiled objects are written only while the finalizer is stored |
| ShardFinalizer.RemovedOnlyAfterCleanup | pkg/controller/shard/controller.go:303-345 | on every run the finalizer disappears only by the controller's removal, after the kcp Shard delete succeeded or found nothing or a RootShard fetch failed |
| ShardFinalizer.ForeignFinalizersSurviveIff | pkg/controller/shard/controller.go:347-375 | the finalizers of others survive a patch if and only if the snapshot had them, and of its own the patch adds or removes just the one |
| ShardFinalizer.NoOrphanOnAnyRun | pkg/controller/shard/controller.go:303-345 | once the object is gone a kcp Shard is left behind only if a cleanup failed to fetch the RootShard or the Shard registered again after its cleanup; without a skipped cleanup, exactly in the latter case |
| ShardFinalizer.OneReconcileReleases | pkg/controller/shard/controller.go:303-345 | one reconcile of a deleted Shard drops the finalizer, and leaves an existing kcp Shard behind if and only if the RootShard was not fetched |
| ShardFinalizer.FailedDeleteKeepsFinalizer | pkg/controller/shard/controller.go:321-337 | failing to connect or to delete keeps the finalizer for the next attempt |
| ShardFinalizer.TransientFailureOrphans | pkg/controller/util/util.go:243-269 | one failing read of a RootShard that exists throughout leaves a kcp Shard behind for good |
| ShardFinalizer.LateRegistrationOrphans | pkg/controller/shard/controller.go:327-342 | a workload that registers between the delete and the removal of the finalizer leaves an orphan although every call succeeds |
| ShardController.ApiServer.PatchFinalizers | pkg/controller/shard/controller.go:347-375 | a merge patch that replaces the finalizer list, or is rejected because a deleted object takes no new finalizers |
| ShardController.ShardReconciler.EnsureFinalizer | pkg/controller/shard/controller.go:347-362 | an added finalizer ends the reconcile, an existing one lets it go on |
| ShardController.ShardReconciler.HandleDeletion | pkg/controller/shard/controller.go:303-345 | creates nothing; success with the finalizer set means it is gone and cleanup was done or skipped |
| ShardController.ShardReconciler.EnsureGroups | pkg/controller/shard/controller.go:189-219 | only objects of the groups are written, the first of every group is tried whatever happened before, and there is no error exactly if every write was answered well, in which case every object of every group exists |
| ShardController.ShardReconciler.Reconcile | pkg/controller/shard/controller.go:161-260 | a live Shard with the finalizer is worked on unless its RootShard was not to be had; only objects of the groups are written, and the CompiledShard only behind an open gate, but then even after errors; otherwise nothing is created; the invariant holds for every behaviour of the outside world |
| ShardPropagation.StepKeepsInvIffSafe | pkg/controller/rootshard/controller.go:60-104 | exactly the safe steps keep the invariant: every consumer is queued, or a status write is due, or it has or will have the current list; likewise the RootShard |
| ShardPropagation.ConsumerStaysOk | pkg/controller/frontproxy/controller.go:132-218 | a consumer's own steps, failures included, keep it taken care of, but for a fetch of the RootShard that fails unnoticed |
| ShardPropagation.RootStaysOk | pkg/controller/rootshard/controller.go:161-325 | so do the RootShard's own steps |
| ShardPropagation.QuiescenceImpliesAgreement | pkg/controller/rootshard/controller.go:307-322 | on every run of safe steps an empty queue means that status and every published list with ready certificates equal the current shards |
| ShardPublishing.PublishedBehindOpenGate | pkg/controller/frontproxy/controller.go:153-177 | on every run, a step that changes what a consumer has published finishes a reconcile of that consumer which read the gate while its certificates were ready, and the new list is the sorted one that reconcile read from the cluster |
| ShardPublishing.RootPublishedBehindOpenGate | pkg/controller/rootshard/controller.go:161-297 | the same for the RootShard's own compiled object |
| ShardPublishing.RecordedWasListed | pkg/controller/rootshard/controller.go:307-322 | on every run, a change of Status.Shards is the status patch of a RootShard reconcile, and records the list that reconcile read for it |
| ShardPublishing.QueuedIff | pkg/controller/shard/controller.go:64-104 | a key is in the queue after a step exactly if it heard of something, its reconcile failed or wrote, or it was there and was not taken off by its start |
| ShardPublishing.NotedSinceFailure | pkg/controller/frontproxy/controller.go:142-147 | on every run a RootShard condition is false only after a failed fetch whose status patch got through, with no edit, no patch of a later success and no other object of that name since |
| ShardSettling.AgreementCertainIffSafe | pkg/controller/shard/controller.go:70-86 | at any moment of a run of safe steps, a step is safe if and only if no continuation without further changes and losses ends quietly in disagreement |
| ShardSettling.SureIffInv | pkg/controller/util/util.go:243-269 | from any state, reached safely or not, agreement is certain if and only if the invariant holds |
| ShardSettling.BrokenEndsInDisagreement | pkg/controller/rootshard/controller.go:307-322 | otherwise a failing RootShard reconcile and the controllers' own work suffice to end in quiet disagreement |
| ShardSettling.SettlesInAgreement | pkg/controller/frontproxy/controller.go:132-177 | from every state a safe run reaches the controllers alone come to rest in agreement |
| ShardSettling.InternalStepsDecrease | pkg/controller/shard/controller.go:161-260 | each error-free step decreases a measure of writes to come, the RootShard's work and its consumers', although writes wake their own keys again |
| ShardLosses.UnchangedShardsWakeNobody | pkg/controller/rootshard/controller.go:317-322 | a RootShard reconcile over unchanged shards writes nothing and wakes nobody |
| ShardLosses.ComeAndGoLeavesStale | pkg/controller/rootshard/controller.go:60-104 | with nothing failing, a shard that comes and goes can leave a consumer stale with nobody queued |
| ShardLosses.UnheardChangeGoesUnnoticed | pkg/controller/rootshard/controller.go:61-74 | a dropped Shard event leaves everybody quiet with the old list |
| ShardLosses.FailingFetchesLeaveStale | pkg/controller/frontproxy/controller.go:142-147 | from any settled state, one consumer failing to fetch the RootShard until its condition says so, and once more, ends stale with nobody queued |
| RootShardChildren.GetRootShardChildren | pkg/controller/util/util.go:273-296 | the matching shards sorted by name, the list error, or the nil dereference of a Shard without reference |
| RootShardChildren.SortByNameSorts | pkg/controller/util/util.go:291-293 | sorting yields the same shards, ordered by unique names |
| Ordering.LessEqIffLexicographic | pkg/controller/util/util.go:291-293 | the order of names is the lexicographic one |
| RootShardChildren.ListingIsCanonical | pkg/controller/util/util.go:273-296 | the result does not depend on the order in which the API server lists |
| RootShardChildren.ListingNames | pkg/controller/util/util.go:284-293 | it names exactly the shards that refer to the RootShard, each once, in order |
| RootShardChildren.RecordShards | pkg/controller/rootshard/controller.go:307-322 | Status.Shards becomes the sorted child names, or stays on a failed list, and a patch is due exactly if it or another part of the status changed |
| PublishGate.ReconcileCertificates | pkg/reconciling/zz_generated_reconcile.go:421-438 | fails exactly if some certificate fails, having captured the objects of a prefix of the list |
| PublishGate.CapturesArePrefix | pkg/reconciling/modifier/capture.go:27-42 | what is captured is a prefix of the certificates, and all of them without an error |
| PublishGate.CapturedIffReached | pkg/reconciling/modifier/capture.go:27-42 | a certificate is in the list the gate reads exactly if some phase reached it: not skipped, all before it applied, and it applied or failing only in the write |
| PublishGate.ReadyIffFirstReadyIsTrue | pkg/controller/util/util.go:151-158 | a certificate is ready if and only if some condition is Ready=True and no Ready condition comes before it |
| PublishGate.ItoaIsDecimal | pkg/controller/util/util.go:145 | the text of a revision consists of digits without a leading zero and stands for that number |
| PublishGate.CertificateRevisions | pkg/controller/util/util.go:137-158 | ready exactly if each captured certificate has Ready=True before any other Ready condition, and then the revision per name |
| PublishGate.RevisionsByName | pkg/controller/util/util.go:137-149 | the map has exactly the certificates' names as keys, each with that certificate's own revision |
| PublishGate.ItoaInjective | pkg/controller/util/util.go:145 | different revisions give different texts, so a renewal always changes the annotation |
| PublishGate.MutateKeys | pkg/controller/util/util.go:161-167 | wraps every key and keeps every value, losing none, in whatever order the map is iterated |
| PublishGate.WrapInjective | pkg/controller/util/util.go:161-167 | key wrapping is injective |
| PublishGate.DistinctKeys | internal/resources/shard/compiled.go:36-42 | there are as many annotation keys as certificates |
| PublishGate.Annotate | internal/resources/shard/compiled.go:36-42 | the published annotations are the source object's own with exactly one revision key per entry on top |
| PublishGate.Publish | pkg/controller/frontproxy/controller.go:153-177 | the compiled object is written exactly if the gate opens and nothing else blocks it, annotated with the captured revisions; if nothing fails, exactly if every certificate exists and is ready, each with its revision under `operator.kcp.io/cert-<name>-revision` |
| PublishGate.OpenGateMeansAllReady | pkg/controller/util/util.go:137-167 | if no phase is skipped and every certificate applied, the gate opens if and only if every certificate of every phase exists with Ready=True as its first Ready condition; the revisions are then theirs, each with an annotation key of its own |
| PublishGate.TrustworthyIffAllCaptured | pkg/controller/frontproxy/controller.go:157-168 | an open gate implies that all certificates are ready, whatever the cluster holds, if and only if the controller stops on errors or every certificate was captured |
| PublishGate.SkippedPhasesOpenTheGate | internal/resources/frontproxy/reconciler.go:107-123 | phases that return before their first certificate leave the gate open in any cluster, with no revision recorded |
| RevisionLabels.WalkMeetsSpec | pkg/reconciling/modifier/revision_labels.go:116-218 | without hash collisions the traversal fails if and only if some reference does, and otherwise yields exactly one entry per existing referenced object with its revision |
| RevisionLabels.FailureIsMissingMount | pkg/reconciling/modifier/revision_labels.go:116-147 | with every lookup answering, not-found is reported exactly if a mandatory object is missing |
| RevisionLabels.LabelsIgnoreOrder | pkg/reconciling/modifier/revision_labels.go:148-218 | the result depends only on the set of references |
| RevisionLabels.PodVisits | pkg/reconciling/modifier/revision_labels.go:148-218 | the traversal visits exactly what the volumes, env and envFrom entries mention, with a mandatory visit for each mandatory mention |
| RevisionLabels.PodWalkMeetsSpec | pkg/reconciling/modifier/revision_labels.go:105-218 | for every pod without collisions: failure if and only if a mandatory object is missing or a lookup breaks, not-found unless one breaks, and else one label per existing mentioned object, spelled with its kind and holding its revision |
| RevisionLabels.CollisionHidesMissing | pkg/reconciling/modifier/revision_labels.go:105-147 | with a collision a missing mandatory object goes unnoticed, depending on the order |
| RevisionLabels.Loader.LoadObject | pkg/reconciling/modifier/revision_labels.go:116-147 | one memoised load does what one step of the traversal does |
| RevisionLabels.Loader.GetRelatedRevisionLabels | pkg/reconciling/modifier/revision_labels.go:148-218 | the nested loops over volumes, envFrom and env perform the traversal; told from the pod, it fails exactly if a mounted Secret or ConfigMap, or one named by an env or envFrom entry that is not optional, is missing or a lookup breaks, and otherwise labels each mentioned object that exists |
| DeploymentLabels.SelectorMatchesIffNoOverride | internal/resources/utils/deployments.go:28-62 | for any template the selector matches the pod labels if and only if no revision label changes one of its keys |
| DeploymentLabels.RevisionLabelsArePrefixed | pkg/reconciling/modifier/revision_labels.go:105-110 | every revision label starts with the operator's prefix |
| DeploymentLabels.SelectorAlwaysMatches | internal/resources/compiledshard/deployment.go:95-101 | so the selector matches for every template, pod and cluster |
| DeploymentLabels.SelectorSeparates | internal/resources/resources.go:186-193 | for every template, pod and cluster the selector matches the pods of an instance and component if and only if it was made for them |
| DeploymentLabels.FinalLabels | internal/resources/utils/deployments.go:28-62 | the pods carry every revision label, the operator's labels that no revision overrides, and the user's that clash with neither |
| DeploymentLabels.MergeMaps | internal/resources/utils/certificates.go:35-48 | the given map itself when there is nothing to add, else a fresh one in which existing keys win |
| DeploymentLabels.ApplyDeploymentTemplate | internal/resources/utils/deployments.go:28-62 | label maps are replaced, never written; the selector object stays the same |
| DeploymentLabels.AddRevisionLabelsToPodSpec | pkg/reconciling/modifier/revision_labels.go:76-103 | the pod labels become a fresh map of the old ones with the revisions on top; an error changes nothing |
| DeploymentLabels.RenderLabels | internal/resources/compiledshard/deployment.go:95-101 | after a whole render the shared map still holds exactly the operator's labels and matches metadata and pods |
| ResourceOverrides.LastWriterWins | internal/resources/utils/deployments.go:77-93 | after any history of overrides each written key has the value of its last writer |
| ResourceOverrides.IntendedIffUndisturbed | internal/resources/utils/deployments.go:77-93 | a container shows its defaults plus its own override if and only if no other last writer left another value |
| ResourceOverrides.LaterOverrideWins | internal/resources/compiledvirtualworkspace/deployment.go:272-276 | a later init container's differing override decides the server container's value, too |
| ResourceOverrides.Package.LimitsAsIntended | internal/resources/compiledvirtualworkspace/deployment.go:272-276 | a container of the package, whenever rendered, has the default limits with its own on top if and only if whoever else was the last to set a limit set what this container was meant to have |
| ResourceOverrides.Package.RequestsAsIntended | internal/resources/compiledvirtualworkspace/deployment.go:272-276 | the same for its requests |
| ResourceOverrides.ApplyResources | internal/resources/utils/deployments.go:77-93 | copies into the maps the container refers to and creates only missing ones |
| ResourceOverrides.Package.RenderPod | internal/resources/compiledvirtualworkspace/deployment.go:255-349 | when a pod is written out all its containers show the defaults overlaid by the package's whole history |
| VirtualWorkspacePod.DedupeKeepsFirst | internal/resources/compiledvirtualworkspace/deployment.go:356-370 | deduplication keeps exactly the first declaration of each name, in order |
| VirtualWorkspacePod.DedupeVolumes | internal/resources/compiledvirtualworkspace/deployment.go:356-370 | the loop with its seen-set computes that |
| VirtualWorkspacePod.PodBuilder.ContainerMounts | internal/resources/compiledvirtualworkspace/deployment.go:217-253 | the closure returns one container's mounts and extends the captured volumes by its kubeconfig's |
| VirtualWorkspacePod.PodBuilder.GetInitContainers | internal/resources/compiledvirtualworkspace/deployment.go:306-350 | the init containers with their mounts, their volumes, and the kubeconfig volumes captured meanwhile |
| VirtualWorkspacePod.RenderPod | internal/resources/compiledvirtualworkspace/deployment.go:117-299 | the containers and the deduplicated volumes of all declarations, in order |
| VirtualWorkspacePod.PodIsConsistent | internal/resources/compiledvirtualworkspace/deployment.go:217-281 | for any number of init containers volume names are distinct first declarations and each operator mount has a volume |
| VirtualWorkspacePod.OwnKubeconfigKeepsAdminOut | internal/resources/compiledvirtualworkspace/deployment.go:217-253 | a container with its own kubeconfig gets no admin volume and nothing at the admin paths from the operator |
| VirtualWorkspacePod.MountShowsItsSecretIffNotShadowed | internal/resources/compiledvirtualworkspace/deployment.go:217-281 | for every container and every Secret the operator mounts into it, its own kubeconfig included, the container sees that Secret if and only if no extra volume of the user takes its name with other contents |
| VirtualWorkspaceSecrets.EveryContainerSees | internal/resources/compiledvirtualworkspace/deployment.go:117-215 | unless shadowed, every container sees the root, server, request header and (merged) client CA and the serving certificate at their paths |
| VirtualWorkspaceSecrets.CacheIsSeen | internal/resources/compiledvirtualworkspace/deployment.go:96-215 | and the cache server's kubeconfig, CA and client certificate: the shard's cache if there is a shard with one, else the RootShard's |
| VirtualWorkspaceSecrets.IdentityIsSeen | internal/resources/compiledvirtualworkspace/deployment.go:117-253 | each container sees its own kubeconfig if it brings one, and otherwise the logical-cluster admin of shard or RootShard with the client certificate |
| VirtualWorkspaceSecrets.ContainersAreAsAsked | internal/resources/compiledvirtualworkspace/deployment.go:255-349 | names and extra mounts are those asked for, the server first |
| VirtualWorkspaceSecrets.UserVolumesAreDeclared | internal/resources/compiledvirtualworkspace/deployment.go:255-370 | every volume a user declares has its name in the pod |
| ShardPod.Deployment.Reconcile | internal/resources/compiledshard/deployment.go:92-232 | in-place assembly by one routine per feature fills the deployment with the specified pod, whatever it held before |
| ShardPod.CollectSecretMounts | internal/resources/compiledshard/deployment.go:103-204 | the Secret mounts of the base, with merged CAs, bundle, mount proxy and cache where configured |
| ShardPod.PodIsCoherent | internal/resources/compiledshard/deployment.go:92-316 | for every shard each file argument's directory is a mount path showing the Secret or ConfigMap that flag is meant to read, and each operator mount has its volume |
| ShardPodArguments.FlagsAreExact | internal/resources/compiledshard/deployment.go:234-316 | a file flag is passed if and only if its feature is configured, and names the file that feature's Secret or ConfigMap holds |
| ShardPodArguments.UserArgsArePassedOn | internal/resources/compiledshard/deployment.go:234-316 | exactly the user's arguments are passed on besides |
| ShardPodArguments.CertificatesAreMounted | internal/resources/compiledshard/deployment.go:103-204 | every certificate of the shard is mounted at its path, needed by an argument or not |
| ShardPodArguments.CAsAreMounted | internal/resources/compiledshard/deployment.go:103-204 | so are the CAs of the RootShard |
| ShardPodArguments.KubeconfigsAreMounted | internal/resources/compiledshard/deployment.go:103-204 | and the shard's kubeconfigs |
| ShardPodArguments.OtherCAsAreMounted | internal/resources/compiledshard/deployment.go:103-204 | and the root CA, the client CA or its merged form, and the CA bundle if configured |
| ShardPodArguments.CacheIsMounted | internal/resources/compiledshard/deployment.go:103-204 | the cache server of the shard, else that of the RootShard, comes with three Secrets |
| ShardPodArguments.ExtrasAreThere | internal/resources/utils/shard.go:165-185 | the user's extra volumes and mounts are in the pod |
| ShardPodNames.VolumesClashIff | internal/resources/utils/authentication.go:82-122 | adding the service account keys keeps volume names unique if and only if root shard and shards have distinct names |
| ShardPodNames.MountsClashIff | internal/resources/utils/authentication.go:82-122 | and mount paths if and only if, moreover, none of them is called ca |
| ShardPodNames.PodSplits | internal/resources/utils/deployments.go:107-129 | every pod is the one without service account keys followed by the keys, if they are on |
| ShardPodUnique.KeylessPodIsUnique | internal/resources/compiledshard/deployment.go:92-232 | whatever is switched on, the volume names and mount paths the operator adds, service account keys aside, are unique |
| ShardPodUnique.RepeatsIff | internal/resources/utils/authentication.go:82-122 | for every shard a name or path comes twice in its pod if and only if the user's volumes or mounts clash with each other or the operator's, or the keys are on and a shard is listed twice, shares its root shard's name, or one of them is called ca |
| CertificateTemplates.MergeIsJoin | internal/resources/utils/certificates.go:50-52 | merging lists is commutative, associative and absorbing, and yields the sorted union |
| CertificateTemplates.MergeIdempotentIffCanonical | internal/resources/utils/certificates.go:50-52 | merging a list with itself changes nothing if and only if it is sorted and duplicate-free |
| CertificateTemplates.Certificate.ApplyTemplate | internal/resources/utils/certificates.go:54-114 | the in-place application computes the specified certificate; a nil template changes nothing |
| CertificateTemplates.ApplyPrivateKeyTemplate | internal/resources/utils/certificates.go:116-143 | set fields override, others stay |
| CertificateTemplates.ApplySubjectTemplate | internal/resources/utils/certificates.go:145-168 | lists are merged, a set serial number overrides |
| CertificateTemplates.TemplateIsIdempotent | internal/resources/utils/certificates.go:54-168 | applying a template twice is applying it once |
| CertificateTemplates.OperatorMetadataSurvives | internal/resources/utils/certificates.go:54-101 | labels and annotations of Certificate and Secret keep every key and value they had and gain exactly the template's other keys |
| CertificateTemplates.OperatorEntriesSurvive | internal/resources/utils/certificates.go:84-168 | IP addresses and all seven lists of the subject end up as the sorted union of both sides |
| CertificateTemplates.SetValuesWin | internal/resources/utils/certificates.go:84-168 | duration, renewal, issuer, private key fields and serial number are the template's where it sets them and the operator's elsewhere |
| CertificateTemplates.ReplacesIffIssuerOverridden | internal/resources/utils/certificates.go:74-82 | the operator's DNS names are dropped for the template's if and only if the template brings names and an issuer; otherwise they all stay |
| CertificateTemplates.Certificate.Reconcile | internal/resources/shard/certificates.go:38-75 | labels and spec are written anew before the template, annotations are left as found |
| CertificateTemplates.OnlyLastSpecCounts | internal/resources/shard/certificates.go:38-75 | labels and spec are those of the last reconcile alone, whatever earlier templates said |
| CertificateTemplates.LastTemplateIsInForce | internal/resources/shard/certificates.go:38-75 | after any sequence of reconciles they are the operator's current values with the current template on top |
| CertificateTemplates.FirstAnnotationSticks | internal/resources/utils/certificates.go:35-60 | over any sequence of reconciles annotations only grow and each keeps the value it was first given |
| CertificateTemplates.AnnotationInForceIffNotSetBefore | internal/resources/utils/certificates.go:35-60 | the current template's value is in force if and only if the Certificate did not carry another one already |
| CertificateTemplates.MergeCertificates | internal/resources/utils/certificates.go:198-206 | the non-empty bundles joined by newlines |
| CertificateTemplates.MergeOfMerges | internal/resources/utils/certificates.go:198-224 | merging merged bundles is merging all parts at once, empty ones included |
| Conditions.UpdateCondition | pkg/controller/util/util.go:220-241 | computes the fold of one condition, library routine included |
| Conditions.UpdateAll | pkg/controller/shard/controller.go:276-279 | the status loop folds all conditions, and each updated type ends up with the status of its last update and the object's generation |
| Conditions.OneUpdate | pkg/controller/util/util.go:220-241 | only the condition of that type is affected; the others keep value and place |
| Conditions.MessageShownIff | pkg/controller/util/util.go:227-238 | a new reason or message is shown if and only if the type is new, status or generation changed, or nothing was new about it; with status and generation unchanged the condition stays as it was |
| Conditions.AnyUpdatesKeepOnePerKind | pkg/controller/util/util.go:220-241 | over any sequence of updates there is at most one condition per type |
| Conditions.LastUpdateCounts | pkg/controller/util/util.go:220-241 | the status of a type is that of its last update |
| Conditions.LastGenerationCounts | pkg/controller/util/util.go:220-241 | so is its generation |
| Conditions.TimeOfLastTransition | pkg/controller/util/util.go:227-236 | over any sequence of updates the transition time is the moment of the last insertion or status flip, or the original one if there was none |

## Left out

- API server, informer caches, work queue and the k8c reconciler library: modelled as atomic calls that succeed, fail, or succeed with the answer lost, and as sets of queued keys. Ensuring a binding or another object is one such call.
- cert-manager, X.509, PEM validation, SHA3, semver, URLs: outcomes or uninterpreted values. `RevisionLabels` takes the truncated hash as a parameter.
- The apimachinery condition helpers are not part of this repository; `Conditions.SetStatusCondition` follows their published behaviour.
- Finalizer lists are sets: their order plays no role in what is modelled.
- RbacController.ApiServer.EnsureBinding: replaces the whole binding; the immutable RoleRef of an existing one and labels of others on it are not modelled.
- RbacController.ApiServer.ListBindings: creating the workspace client is folded into this call; both can fail, with the same effect.
- RbacController.KubeconfigRbacReconciler.Reconcile: requeueing after an error is left to the next reconcile of the run.
- ShardFinalizer.NoOrphanOnAnyRun: follows one Shard object from creation to removal; a later object of the same name begins a new run.
- ShardController.ShardReconciler.Reconcile: takes the verdict of the publish gate as an input (`PublishGate` models the gate), and leaves out the status write after it (`Conditions` models its fold).
- ShardPropagation.QuiescenceImpliesAgreement: the propagation is modelled on values as a machine over the queue, since no single object in the source holds that state. Periodic resyncs and unrelated events are optional wake-ups. RootShards that come and go are not modelled.
- PublishGate.Publish: the Secrets, Issuers and shard lists the controllers handle around the gate appear only as a reason not to publish.
- DeploymentLabels.ApplyDeploymentTemplate: annotations follow the same merge as labels and are not repeated; the pod spec fields of a template are plain assignments.
- ShardPod.Deployment.Reconcile: arguments that name no file, labels, image, replicas, probes, ports and security contexts are not modelled; the version constraint is a boolean. User-supplied arguments are carried along but not interpreted.
- ShardPodUnique.RepeatsIff: repetition is one reason to reject a pod. Another, that a volume name must be a DNS label (a shard name with a dot or of more than 47 characters makes an invalid one), is not modelled; nor is a mount point inside another mount.
- VirtualWorkspacePod.PodBuilder.GetInitContainers: images, commands, arguments and pull secrets, which have no part in volumes and mounts.
- VirtualWorkspacePod.RenderPod: the same, and replicas. The comment that `spec.command` suppresses kcp-only flags (sdk/apis/operator/v1alpha1/virtualworkspace_types.go:56-62) is not what the code at internal/resources/compiledvirtualworkspace/deployment.go:383-422 does.
- CertificateTemplates.MergeCertificates: reading the bundles out of Secrets and validating them.
- Name builders beyond those used here, RootShard and FrontProxy CAs, Services, Secrets' contents, metrics, scheme registration and generated code: no property of their own.
