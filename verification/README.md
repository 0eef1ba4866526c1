# Boilerhouse operator: a model with proofs

Boilerhouse runs agent workloads for tenants on Kubernetes. A claim asks for a pod of one workload for one
tenant; the operator serves it from a warm pool or by a cold boot, stores the tenant's overlay when the claim
goes idle or is deleted, and puts it back the next time. This project models the parts of it where a mistake
would lose a tenant's data, hand a pod to two tenants or keep a revoked token alive, and proves what they keep.

## How the model is built

**The cluster** (`Cluster`, `ClusterSafety`, `ClusterRuns`, `OverlayRuns`, `FailingRuns`). A `World` is what the API server and
the snapshot store hold; an `Act` is one successful call. `Enabled` says when an actor may take an act: the
claim controller (`C...`), the pool controller (`P...`), or anybody else: kubelet, tenants, API clients, the
garbage collector, the clock (`E...`). The theorems hold for every legal run, that is, every interleaving of
single calls.

**The controllers** (`ApiServers`, `Interference`, `ClaimCalls`, `ClaimReconcilers`, `PoolReconcilers`). The
reconcilers are classes that call a mutable API server object. Before each call other actors may run
(`Interfere`), any call may be refused, and an update fails if the object has moved on since it was read. Each
write has to be an enabled act, so the two reconcilers are proved to stay within the step system whatever
happens between their calls; and each claim reconcile is proved to do exactly what the decision table
`ClaimPlan` says for the answers it got. `calm` marks an API server that nobody else uses and that refuses
nothing; it is used only where the answers themselves, or exact counts, are the point. A reconcile under `calm` is
an undisturbed one (`Reconciles`), and `ClaimProgress` follows such reconciles until the claim is Active. The snapshot manager's
`alone` and `steady`, the token store's `reliable` and the echo loop's `steady` play the same part.

**What the decisions amount to** (`ClaimActs`, `ClaimProgress`, `ClaimSources`, `ReleaseLimits`): exactly when a
reconcile takes each kind of act, in which order and with which result, in terms of the claim, the workload and the
answers alone; how many reconciles a claim needs, where its source comes from, and what a release leaves behind. `FailingRuns` holds whole runs from an empty
cluster, with the claim controller doing exactly what the table says, in which a documented promise fails.

**Around it**: the snapshot store file by file (`SnapshotFiles`), its paths and listing (`SnapshotPaths`), the API
server's token index (`TokenStores`), the WebSocket echo workload (`WebSocketFrames`), the dashboard's watch
edges (`WatchEdges`), the trigger gateway (`Gateways`) and the Telegram poller (`Telegrams`).

## Assumptions

- Claim reconciles are serial (the default single worker, go/internal/operator/claim_controller.go:174-178). Pool
  reconciles, kubelet changes and API clients interleave freely between any two calls.
- Reads are current, `Update` fails on a stale resourceVersion, a call that reports an error had no effect
  (the snapshot store excepted), and deleting a pod removes it at once.
- Generated pod names and tokens were never used before.
- The spec of a claim or pool does not change, pool sizes are at least 0 and fill caps at least 1 (the minimum
  values of the CRD fields), a tenant id is not empty, and there is one pool per workload. Workloads may change
  or vanish at any time.
- SHA-256 has no collisions and its digests are non-empty hex. A digest is written to its file in one piece.
- `kubectl exec` reports success only if the whole of its standard input was delivered.
- The archive of a pod's overlay is what an inject puts back: extraction replaces the overlay.
- Tenant names contain no slash where the store is concerned: they are label values. `SlashCollides` and
  `ParseInverts` say what happens otherwise.

## Where the code and its documentation part

- The comment at go/internal/operator/snapshots.go:320-324 says that a partial stream never replaces a good
  snapshot. It can: `cat` succeeds when its input ends early, and a crash between the two renames leaves the new
  archive with the old checksum. `IntactAfterWrite` gives the exact condition. What does hold is that a damaged
  snapshot is never streamed into a pod (`InjectSnapshot`), except that an empty archive is reported as a
  successful inject of nothing (go/internal/operator/snapshots.go:145-147).
- The comment at go/internal/operator/claim_pods.go:84-87 says that a cold boot injects the snapshot later. No run
  ever injects a cold-booted pod (`ColdPodIsNeverInjected`); a reconcile injects exactly when it takes a pod from
  the warm pool and there is a snapshot (`InjectsIff`).
- The comment at go/internal/operator/claim_activate.go:15-20 says that a claim remembers its source until it is
  Active. It does exactly if no reconcile on the way finds the pod running without an address; otherwise it reports
  `existing` (`RememberedSourceSurvivesIff`).
- Source `pool+data` can name a pod without the tenant's data: one that was never injected, because the claim had
  remembered another pod (`StaleSourceRun`), or one injected with an empty archive file (`EmptyArchiveRun`).
  `PoolDataIsTrueIff` says exactly when it is right.
- A failed release keeps the pod, but an attempt can damage the snapshot of before (`LostSnapshotRun`);
  `FailedReleaseKeepsSnapshotIff` says exactly when the store is left as it was, and `IntactSnapshotSurvivesIff`
  when an intact snapshot is.
- A claim that has just been released still has a token exactly if its pod was gone and it had one before
  (`ReleasedKeepsTokenIff`).
- A release whose second workload read fails deletes the pod without storing it (`UnsavedDeletionIff`).
- A cold token lookup is not atomic with the delete handler and can bring a revoked token back
  (`SplitLookupResurrects`).

## Model

| member | source | states |
|---|---|---|
| ClusterSafety.StepInv | go/internal/operator/claim_pods.go:17-82 | every single call of either controller or of anybody else keeps all invariants: one pod per tenant and workload, labels, pool limits, claim status, saved overlays, distinct tokens |
| ClusterSafety.RunInv | go/internal/operator/claim_controller.go:59-161 | the invariants hold after every legal run |
| ClusterSafety.InitInv | go/internal/operator/pool_controller.go:82-100 | an empty cluster satisfies the invariants |
| ClusterSafety.CapMoved | go/internal/operator/pool_controller.go:102-154 | no change of one pod takes a pool over its size or its fill cap |
| ClusterSafety.ClaimEditIsOk | go/internal/operator/claim_activate.go:21-63 | every write of a claim leaves a sound claim with the same key, and moves its phase only along the lifecycle |
| ClusterRuns.PodIsBoundOnce | go/internal/operator/claim_pods.go:52-64 | over any run a pod's status only moves warming to ready to acquired, it has no tenant before it is acquired, its tenant never changes, and a removed pod stays removed |
| ClusterRuns.NoPodServesTwoTenants | go/internal/operator/claim_pods.go:59-64 | a pod found under two tenant and workload pairs at any two moments of a run means the pairs are equal |
| ClusterRuns.AtMostOneTenantPod | go/internal/operator/claim_controller.go:130-160 | in every run at most one pod carries a tenant and workload, however many claims ask for it |
| ClusterRuns.PoolStaysWithinLimits | go/internal/operator/pool_controller.go:102-154 | at every moment of every run a pool has at most size pods and at most cap warming ones |
| ClusterRuns.ActiveClaimIsServed | go/internal/operator/claim_activate.go:40-63 | an Active claim has the finalizer, a claim time, a host and an instance which, while it exists, is the one pod with the claim's labels |
| ClusterRuns.PhasesFollowTheLifecycle | go/internal/operator/claim_controller.go:74-112 | phases only move empty or Error to Pending, Pending to Active or Error, Active to Released or ReleaseFailed |
| ClusterRuns.ActiveIsLeftOnlyWhenDue | go/internal/operator/claim_activate.go:66-136 | Active is left only if the pod is gone or the idle timeout is over, counted from the last activity if one was noted and otherwise from the claim time; if Released for idleness, no pod and no token Secret are left |
| OverlayRuns.ReapOnlyAfterStore | go/internal/operator/claim_release.go:34-60 | with a readable hibernate workload with overlay dirs, a pod is deleted only after an ExtractAndStore of it succeeded in the same reconcile, and the store holds that archive |
| OverlayRuns.RevivedWithTheLastOverlay | go/internal/operator/claim_pods.go:52-82 | if a pod was reaped with a non-empty overlay, nothing else touched the store for its tenant and workload since, and a claim of theirs becomes Active as pool+data with a pod that still exists, then that pod was filled with exactly the bytes extracted from the reaped one |
| OverlayRuns.HibernateThenRevive | go/internal/operator/claim_pods.go:66-79 | the step of it that looks at one inject: a successful inject gives the new pod the bytes extracted from the pod that was reaped |
| OverlayRuns.StoreStays | go/internal/operator/snapshots.go:87-112 | steps that do not touch a key's snapshot leave it as it is over any stretch of a run |
| OverlayRuns.SnapshotProvenance | go/internal/operator/snapshots.go:87-112 | every intact snapshot was extracted at some earlier step from a pod of the same tenant and workload |
| OverlayRuns.InjectedBytesAreTheTenantsOwn | go/internal/operator/snapshots.go:137-173 | injected bytes were extracted from a pod with the same tenant and workload labels as the pod they go into |
| OverlayRuns.RevokedTokenIsDead | go/internal/operator/claim_token.go:100-109 | after a revocation no Secret holds that token again in any continuation of the run |
| OverlayRuns.TokenIsStable | go/internal/operator/claim_token.go:49-96 | a claim's token is the same at any two moments between which its Secret exists |
| OverlayRuns.FinalizerIsHeldUntilClean | go/internal/operator/claim_release.go:169-186 | the finalizer is dropped only when the Secret and the tenant's pod are gone |
| OverlayRuns.OneClaimWritePerReconcile | go/internal/operator/claim_controller.go:94-112 | between two writes of a claim a new reconcile has begun |
| OverlayRuns.InjectionHasCause | go/internal/operator/claim_pods.go:66-79 | a recorded injection goes back to an inject of what the store then held for that key |
| OverlayRuns.PoolDataMeansInjected | go/internal/operator/claim_activate.go:21-63 | a claim that becomes Active as pool+data goes back to a successful inject for its own tenant and workload, into its own pod unless it had remembered another one |
| OverlayRuns.InjectFillsIff | go/internal/operator/snapshots.go:137-173 | a successful inject fills the pod with the stored archive if it is intact; otherwise the archive file is empty and the pod is left as it was |
| OverlayRuns.FilledIff | go/internal/operator/claim_pods.go:66-79 | a pod was filled with its tenant's stored archive at some earlier step if and only if it is recorded as injected with an intact snapshot |
| OverlayRuns.PoolDataIsTrueIff | go/internal/operator/claim_activate.go:21-63 | a claim that becomes Active as pool+data names a pod filled with its tenant's stored archive if and only if that pod is recorded as injected with an intact snapshot; if the claim had remembered no other pod, if and only if the store was intact at the inject |
| FailingRuns.StaleSourceRun | go/internal/operator/claim_activate.go:23-48 | a run from an empty cluster, of reconciles that follow the decision table, ends with a claim Active as pool+data whose pod was never injected |
| FailingRuns.EmptyArchiveRun | go/internal/operator/snapshots.go:143-147 | another one ends with a claim Active as pool+data that remembered no other pod and whose pod was injected with nothing |
| ClaimSources.InjectsIff | go/internal/operator/claim_pods.go:52-87 | a reconcile injects if and only if it gets as far as obtaining a pod, acquires one of the warm pool, and a snapshot is there |
| ClaimSources.ColdPodIsNeverInjected | go/internal/operator/claim_pods.go:84-106 | in no continuation of any run is a cold-booted pod injected |
| ClaimSources.OnlyPoolPodsAreInjected | go/internal/operator/claim_pods.go:52-82 | a pod that is injected was acquired from the warm pool at an earlier step |
| ClaimSources.AdoptionKeepsSource | go/internal/operator/claim_activate.go:23-48 | a reconcile that finds the tenant's pod keeps a remembered source, and replaces it by existing exactly if the pod runs without an address |
| ClaimSources.ObtainingSetsSource | go/internal/operator/claim_activate.go:23-48 | a reconcile that obtains a pod leaves the status alone or writes the source that says how it was obtained |
| ClaimSources.RememberedSourceSurvivesIff | go/internal/operator/claim_activate.go:15-48 | over any number of reconciles that find the pod, a remembered source reaches Active if and only if none of them saw the pod running without an address |
| Interference.ClaimRelyRun | go/internal/operator/claim_controller.go:59-161 | between two calls of the claim controller others never add a tenant pod, revive a terminal one, create a Secret or change an object without changing its version |
| Interference.PoolRelyRun | go/internal/operator/pool_controller.go:82-100 | between two calls of the pool controller others add no pool pod and move a status only from ready to acquired |
| ApiServers.ApiServer.Interfere | go/internal/operator/claim_controller.go:174-178 | other actors may take any legal acts of theirs between two calls |
| ApiServers.ApiServer.Commit | go/internal/operator/claim_controller.go:59-161 | a successful call is one enabled act |
| ClaimCalls.ClaimClient.FindTenantPod | go/internal/operator/claim_pods.go:17-32 | the first pod of the List is the tenant's only one; none means there is none |
| ClaimCalls.ClaimClient.FindPoolPod | go/internal/operator/claim_pods.go:34-50 | a ready pool pod of the workload with the version it was read at, or there was none |
| ClaimCalls.ClaimClient.AcquirePod | go/internal/operator/claim_pods.go:59-64 | the relabelling update that succeeds leaves the pod as it was listed but for tenant, status and version; one that fails is no act; undisturbed it succeeds |
| ClaimCalls.ClaimClient.EnsureToken | go/internal/operator/claim_token.go:39-96 | unless the call failed there is a Secret afterwards: the one there was, unchanged, or a new one with a token never used before; undisturbed it is new exactly when there was none |
| ClaimCalls.ClaimClient.RevokeToken | go/internal/operator/claim_token.go:98-109 | after it the Secret is gone unless the call failed |
| ClaimCalls.ClaimClient.Inject | go/internal/operator/claim_pods.go:72-77 | a reported success is a recorded injection into this pod for this key |
| ClaimCalls.ClaimClient.ExtractAndStore | go/internal/operator/snapshots.go:87-112 | an attempt counts the pod as saved exactly if it succeeded |
| ClaimReconcilers.ClaimReconciler.Reconcile | go/internal/operator/claim_controller.go:58-91 | whatever others do meanwhile, the acts taken and the result are those of the decision table for the answers received; undisturbed, the claim, the first read of the workload, the tenant pod, the check of the instance and the clock are answered truly, no call fails, and the cluster is where the acts of the table lead |
| ClaimPlan.PlanSucceeds | go/internal/operator/claim_controller.go:58-91 | a reconcile none of whose calls comes back with an error does not end in one, whatever extractions and injects report |
| ClaimReconcilers.ClaimReconciler.Route | go/internal/operator/claim_controller.go:69-90 | deletion first, then by phase; Released and ReleaseFailed do nothing |
| ClaimReconcilers.ClaimReconciler.HandleNewClaim | go/internal/operator/claim_controller.go:93-124 | finalizer, then Pending, then serve, one write each time |
| ClaimReconcilers.ClaimReconciler.UsePod | go/internal/operator/claim_controller.go:135-148 | a running pod is activated, a terminal one replaced, any other waited for |
| ClaimReconcilers.ClaimReconciler.ReplacePod | go/internal/operator/claim_controller.go:139-160 | a terminal pod is deleted before another one is obtained |
| ClaimReconcilers.ClaimReconciler.ClaimFromPool | go/internal/operator/claim_pods.go:52-82 | relabel, then inject if there is a snapshot, then activate as pool+data only after a successful inject |
| ClaimReconcilers.ClaimReconciler.ColdBoot | go/internal/operator/claim_pods.go:88-106 | the token Secret comes before the pod, unless API access is disabled |
| ClaimReconcilers.ClaimReconciler.ActivateClaim | go/internal/operator/claim_activate.go:21-63 | without an IP the pod and source are remembered and the claim stays Pending; with one it becomes Active |
| ClaimReconcilers.ClaimReconciler.HandleActive | go/internal/operator/claim_activate.go:66-136 | pod check, idle configuration, reference time and deadline in that order |
| ClaimReconcilers.ClaimReconciler.ReleaseClaim | go/internal/operator/claim_release.go:24-76 | store, remove, revoke, then Released; stops at the first failure |
| ClaimReconcilers.ClaimReconciler.ExtractWithRetry | go/internal/operator/claim_release.go:15-106 | succeeds exactly when a scheduled attempt does, which is then the last one made; the sleep is the sum of the backoffs before it; without a schedule of its own it makes three attempts and sleeps 1 s and 4 s between them |
| ClaimReconcilers.ClaimReconciler.SaveAndRemove | go/internal/operator/claim_release.go:39-60 | the pod is removed only if an attempt stored it; otherwise only the attempts happened |
| ClaimReconcilers.ClaimReconciler.MarkReleaseFailed | go/internal/operator/claim_release.go:108-118 | only the status is written; the pod is not touched |
| ClaimReconcilers.ClaimReconciler.HandleDeletion | go/internal/operator/claim_release.go:120-189 | without the finalizer nothing; otherwise store, remove, revoke, drop the finalizer, holding it if the store failed |
| ClaimActs.EndingActs | go/internal/operator/claim_release.go:24-76 | an act is taken by a reconcile that ends a tenancy (the claim is deleted, or idle since its last activity or else its claim time) if and only if: an extraction, an overlay is at stake; a delete or a revocation or the last write, what is at stake has been stored and the calls before did not fail; ReleaseFailed, it has not |
| ClaimActs.DropsIff | go/internal/operator/claim_release.go:52-57 | a reconcile deletes the stored snapshot if and only if it ends the tenancy of a pod, there is a store and the action of the workload is destroy |
| ClaimActs.DestroyLeavesNothing | go/internal/operator/claim_release.go:162-186 | after such a reconcile, undisturbed, the store holds nothing for that tenant and workload |
| ClaimActs.EndingResult | go/internal/operator/claim_release.go:111-118 | an ending comes back after 300 s if the overlay could not be stored, is done if every call and the last write got through, and otherwise is an error |
| ClaimActs.NotYetIdle | go/internal/operator/claim_activate.go:91-136 | an Active claim with its pod: before timeout seconds since its last activity (or else its claim time) the reconcile does nothing and comes back at the deadline, from then on it ends the tenancy, and without a timeout it is done |
| ClaimActs.NoReference | go/internal/operator/claim_activate.go:123-126 | with neither time it does nothing and comes back after 30 s |
| ClaimActs.BeginningActs | go/internal/operator/claim_controller.go:126-161 | an act is taken for a waiting claim if and only if: the delete of a terminal pod, there was one; acquire and inject, no pod is left and the pool has one; mint and create, it has none; and the last write is Active with the address and port of the pod and the time it was written, or the pod remembered if it has no address |
| ClaimActs.BeginningResult | go/internal/operator/claim_activate.go:21-63 | it comes back after 30 s once Active, 1 s without an address, 2 s if the pod has not started, and otherwise is an error |
| ClaimActs.ActiveAtItsPod | go/internal/operator/claim_activate.go:40-63 | undisturbed, a claim whose pod runs with an address becomes Active with that pod, its address and port, and the time read for it |
| ClaimActs.OtherActs | go/internal/operator/claim_controller.go:58-124 | any other reconcile takes an act if and only if it is the finalizer, Pending, an error about the workload, or that the pod is gone, each under its condition |
| ClaimActs.ActsInOrder | go/internal/operator/claim_release.go:24-76 | in every reconcile the overlay is stored or the snapshot deleted before the pod goes, the pod before the token and before another pod is obtained, a token is minted before the pod that refers to it, and the claim is written last |
| ClaimProgress.ReconcileComesCloser | go/internal/operator/claim_controller.go:94-161 | with the workload ready and no errors, every reconcile of a claim that is not Active strictly decreases its rank |
| ClaimProgress.ActiveAfterFourReconciles | go/internal/operator/claim_activate.go:21-63 | a new claim whose pods are running by the next reconcile is Active after at most four |
| ClaimProgress.FailedExtractionStopsRelease | go/internal/operator/claim_release.go:147-160 | for every pattern of failed attempts the pod, token and finalizer are left alone, no snapshot is deleted, and an idle claim becomes ReleaseFailed |
| ClaimProgress.SuccessfulExtractionReleases | go/internal/operator/claim_release.go:34-76 | after a successful attempt the reconcile ends with delete, revoke and the final write, in that order |
| ReleaseLimits.UnsavedDeletionIff | go/internal/operator/claim_release.go:36-60 | a tenancy ends with the pod deleted and not stored if and only if hibernation, the store, the overlay dirs or a readable workload is missing |
| ReleaseLimits.StoreIsLastWrite | go/internal/operator/snapshots.go:87-112 | after any stretch of a run the store holds for a key what the last write of the stretch left, or what it held before if there was none |
| ReleaseLimits.FailedReleaseKeepsSnapshotIff | go/internal/operator/claim_release.go:81-106 | over a release or deletion without a successful attempt the key's snapshot stays as it was if and only if the last attempt that wrote it, if any, left what was there; such an attempt tore the files, or stored a non-empty archive and then failed |
| ReleaseLimits.IntactSnapshotSurvivesIff | go/internal/operator/claim_release.go:81-106 | an intact snapshot of before survives it if and only if the last attempt that wrote, if any, stored the same archive |
| FailingRuns.LostSnapshotRun | go/internal/operator/claim_release.go:81-106 | a run from an empty cluster, of reconciles that follow the decision table, whose last deletion fails to store and leaves a torn snapshot where there was an intact one |
| ReleaseLimits.ReleasedKeepsTokenIff | go/internal/operator/claim_activate.go:66-136 | a step that takes a claim from Active to Released leaves it a Secret if and only if the reason is that its pod is gone and there was a Secret before |
| ReleaseLimits.IdleReleaseRevokes | go/internal/operator/claim_release.go:62-75 | the half of it about idleness: a claim Released for another reason than a missing pod has no Secret |
| ReleaseLimits.GoneReleaseKeepsToken | go/internal/operator/claim_activate.go:67-83 | the reconcile that finds the pod gone only writes the status: it makes no call that revokes |
| ReleaseLimits.RevokedIsRefused | go/internal/api/token_store.go:177-198 | a token revoked in the cluster is dead in the token store at any later moment at which no event about it is pending: no Secret in the cache, no entry in the index and no event knows it, so that no lookup accepts it |
| PoolReconcilers.Filter | go/internal/operator/pool_controller.go:178-196 | the list holds each warming or ready pod of the workload once, and nothing else |
| PoolReconcilers.PoolReconciler.RelabelOne | go/internal/operator/pool_controller.go:87-91 | a relabelled pod is as it was listed but for status and version; an update that fails is no act |
| PoolReconcilers.PoolReconciler.Relabel | go/internal/operator/pool_controller.go:82-100 | the ripe pods are relabelled in order; warming and ready count exactly the others and the rest, and stay right whatever others do; undisturbed nothing else happens to any pod |
| PoolReconcilers.RelabelsIff | go/internal/operator/pool_controller.go:87-91 | a listed pod is relabelled if and only if it is warming, Running, and all its containers are ready |
| PoolReconcilers.UnripeCounts | go/internal/operator/pool_controller.go:92-99 | the loop counts as warming exactly the listed pods that are warming and not so |
| PoolReconcilers.PoolReconciler.CreateOne | go/internal/operator/pool_controller.go:127-153 | a creation stays within size and cap even though the list is old by then |
| PoolReconcilers.PoolReconciler.Fill | go/internal/operator/pool_controller.go:102-154 | never more than the gap and the cap allow, exactly that many if it completes |
| PoolReconcilers.PoolReconciler.FillPass | go/internal/operator/pool_controller.go:76-162 | a completed pass reports what it listed and made; one that stops on an error has done a part of it; undisturbed it makes ready exactly the warming pods that run with all containers ready, leaves all others as they were, adds as many warming pods as size and cap (2 if not set) allow, and reports the numbers of ready and warming pods there are then |
| PoolReconcilers.PoolReconciler.DeletePoolPods | go/internal/operator/pool_controller.go:198-219 | when it completes no pod of the workload with a pool label is left, acquired ones included; undisturbed it completes and deletes no other pod |
| PoolReconcilers.PoolReconciler.HandleDeletion | go/internal/operator/pool_controller.go:48-61 | when the pool object goes no pod of the workload with a pool label is left; undisturbed it goes, and no other pod is touched |
| PoolReconcilers.PoolReconciler.Reconcile | go/internal/operator/pool_controller.go:28-162 | Healthy is reported only with at least size ready pods; the pool object goes only when no pod of the workload is warming, ready or acquired; no pool act before the finalizer is there or after deletion is asked for; undisturbed it never fails and a ready workload gets such a pass |
| PoolReconcilers.HealthyMeansFull | go/internal/operator/pool_controller.go:156-162 | ready plus warming is listed plus created, and Healthy means ready is at least size |
| PoolReconcilers.ExactPass | go/internal/operator/pool_controller.go:102-154 | relabelling the whole list and then adding the fill count is such a pass: no pod is added beyond the size or the cap, and one more would be |
| PoolReconcilers.ReportIsShown | go/internal/operator/pool_controller.go:156-176 | undisturbed the status says how many pods are ready and warming in the cluster, and Healthy if and only if none is warming |
| PoolFill.PoolAfterPasses | go/internal/operator/pool_controller.go:102-154 | from empty, k passes make exactly min(size, k * cap) pods if warming pods become ready between passes |
| PoolFill.FullAfter | go/internal/operator/pool_controller.go:102-154 | the pool is full exactly from the pass numbered size / cap rounded up on, and later passes create nothing |
| SnapshotPaths.PathsCollide | go/internal/operator/snapshots.go:75-83 | two of the four paths of two keys are one file if and only if the slots agree and tenant/workload reads the same |
| SnapshotPaths.PathsApart | go/internal/operator/snapshots.go:75-83 | tenants without a slash never share any of the four files |
| SnapshotPaths.SlashCollides | go/internal/operator/snapshots.go:76-78 | a tenant with a slash always shares all four with another key |
| SnapshotPaths.DiscoverSnapshots | go/internal/api/routes_snapshot.go:53-86 | the loop returns the parsed entries of the lines, in order |
| SnapshotPaths.ParseInverts | go/internal/api/routes_snapshot.go:71-83 | parsing inverts /snapshots/tenant/workload.tar.gz if and only if neither name contains a slash |
| SnapshotPaths.PaddedPathReads | go/internal/api/routes_snapshot.go:66-70 | a line reads the same with blanks, tabs and line ends around the path |
| SnapshotPaths.ListingRoundTrip | go/internal/api/routes_snapshot.go:65-84 | reading back a listing gives exactly the listed keys, in order |
| SnapshotPaths.OnlyArchivesMatch | go/internal/api/routes_snapshot.go:56-57 | find selects archives and neither checksums nor temporary files |
| SnapshotPaths.ListsTheStore | go/internal/api/routes_snapshot.go:53-86 | listing a store returns a key if and only if it has an archive |
| SnapshotFiles.OthersUntouched | go/internal/operator/snapshots.go:325-349 | no file operation for one key changes any of the four files of another |
| SnapshotFiles.OthersKeepState | go/internal/operator/snapshots.go:325-349 | so no file operation for one key changes whether the snapshot of another is there and intact |
| SnapshotFiles.StepSums | go/internal/operator/snapshots.go:339-346 | in any interleaving a checksum file is empty or the digest of an archive produced for that key |
| SnapshotFiles.RunSums | go/internal/operator/snapshots.go:339-346 | the same after every run of file operations |
| SnapshotFiles.VerifiedIsProduced | go/internal/operator/snapshots.go:38-48 | content that verifies is a complete archive produced for the same tenant and workload, whatever else was going on |
| SnapshotFiles.PaddedSumVerifies | go/internal/operator/snapshots.go:35-48 | an archive verifies against a checksum file, white space around it or not, if and only if it is the archive's own; an empty or blank one verifies nothing |
| SnapshotFiles.CrashTable | go/internal/operator/snapshots.go:339-346 | what the store holds for the key after a crash at each of the seven commands with any part of the archive delivered |
| SnapshotFiles.IntactAfterWrite | go/internal/operator/snapshots.go:320-346 | after a write over a good snapshot there is an intact one if and only if it stopped before the first rename, or between them with unchanged content, or everything arrived |
| SnapshotFiles.PartialStreamReplacesGoodSnapshot | go/internal/operator/snapshots.go:320-346 | an upload cut off at the start leaves an empty archive in place of a good one |
| SnapshotFiles.CrashBetweenRenamesLosesSnapshot | go/internal/operator/snapshots.go:339-346 | a crash between the renames leaves a new archive with an old checksum |
| SnapshotFiles.ScriptRefinesExtract | go/internal/operator/snapshots.go:320-358 | every outcome of the script is one the cluster model allows for an extraction, Stored if it completed |
| SnapshotFiles.SnapshotManager.Write | go/internal/operator/snapshots.go:325-358 | success means all seven commands ran on the whole archive; the files are those of the script cut short |
| SnapshotFiles.SnapshotManager.ExtractAndStore | go/internal/operator/snapshots.go:85-112 | no dirs or an empty archive store nothing; success with an archive leaves exactly it, intact |
| SnapshotFiles.SnapshotManager.InjectSnapshot | go/internal/operator/snapshots.go:133-173 | whatever is streamed was produced for the same key, under any interference; undisturbed it is the stored archive exactly if that is intact, and success without a stream means an empty one |
| SnapshotFiles.SnapshotManager.HasSnapshot | go/internal/operator/snapshots.go:124-131 | true exactly if there is an archive file, intact or not |
| SnapshotFiles.SnapshotManager.DeleteSnapshot | go/internal/operator/snapshots.go:175-193 | afterwards the snapshot is gone or as it was, and a failed rm is reported as success; if nothing fails both files are gone and no other |
| TokenStores.TokenStore.Lookup | go/internal/api/token_store.go:106-128 | with no event about the token pending it accepts it, with that identity, if and only if a cached Secret has this token and its expiry, if any, is not past; otherwise it accepts only tokens of cached Secrets or ones whose removal is pending; never a dead one |
| TokenStores.TokenStore.ColdLookup | go/internal/api/token_store.go:130-158 | accepts a token only if a cached Secret has it and its expiry is not past, always so if the List gets through, and puts the Secret's entry into the index exactly then, which stays sound; with no event about the token pending it finds nothing and there is nothing to find |
| TokenStores.TokenStore.Find | go/internal/api/token_store.go:138-156 | finds a Secret with the token if there is one |
| TokenStores.TokenStore.Dispatch | go/internal/api/token_store.go:160-198 | delivering an event keeps the index sound, and delivering a removal kills its token |
| TokenStores.SettledEntry | go/internal/api/token_store.go:106-122 | with no event about it pending a token is indexed if and only if a cached Secret holds it, and with that Secret's identity and expiry |
| TokenStores.UpsertSound | go/internal/api/token_store.go:160-175 | an added or updated Secret with its own unchanged token keeps the index sound |
| TokenStores.RemoveSound | go/internal/api/token_store.go:177-198 | so does a removal |
| TokenStores.InsertSoundIff | go/internal/api/token_store.go:149-153 | an insert keeps the index sound if and only if an event for the token is pending or the cache holds it with this entry |
| TokenStores.UpdateSoundIff | go/internal/api/token_store.go:160-175 | an update keeps it sound if and only if the Secret had no token or keeps the same one |
| TokenStores.RemovalKills | go/internal/api/token_store.go:177-198 | nothing knows a token any more once its removal has been delivered |
| TokenStores.SplitLookupResurrects | go/internal/api/token_store.go:130-156 | a lookup that lists before a deletion and inserts after its delivery brings the token back for good |
| TokenStores.EntryMeansLive | go/internal/api/token_store.go:106-122 | an indexed token belongs to a cached Secret or its removal is pending |
| WebSocketFrames.MakeFrame | workloads/wsecho/server.py:28-40 | the frame it makes has FIN set and no mask, and reads back as exactly this opcode and payload with nothing left over |
| WebSocketFrames.ShortestForm | workloads/wsecho/server.py:31-38 | no byte string that reads as this one frame is shorter than make_frame's |
| WebSocketFrames.Unmask | workloads/wsecho/server.py:54-59 | the loop replaces byte i by its exclusive or with key byte i mod 4, in place |
| WebSocketFrames.MaskTwice | workloads/wsecho/server.py:55-59 | unmasking undoes masking at every length |
| WebSocketFrames.ReadFrame | workloads/wsecho/server.py:43-61 | reads exactly the first frame of the stream, or nothing if the stream ends inside it: opcode, length (7 bits, or 2 or 8 bytes with the most significant first), key and payload each from their places, byte by byte |
| WebSocketFrames.ParseReads | workloads/wsecho/server.py:43-61 | the same for the specification that the round trips are stated with |
| WebSocketFrames.StreamReads | workloads/wsecho/server.py:43-61 | any frames, masked or not, with any high bits and lengths under 2^64, are read back exactly, and all bytes are consumed |
| WebSocketFrames.Echo | workloads/wsecho/server.py:100-114 | the output encodes the text and binary frames before the first close and then one empty close, or a first part of that if writing failed |
| WebSocketFrames.RepliesCons | workloads/wsecho/server.py:103-112 | frame by frame: opcodes 1 and 2 are answered with the same frame, the first 8 with an empty close and then nothing, any other not at all |
| WebSocketFrames.EchoEndToEnd | workloads/wsecho/server.py:100-112 | what a client reads back is the text and binary frames it sent before its first close, then a close |
| WatchEdges.WatchPods | go/internal/api/websocket.go:105-157 | the messages are those read off the whole history: a ready message exactly at each rising edge |
| WatchEdges.WatchClaims | go/internal/api/websocket.go:184-240 | the same for claimed and released |
| WatchEdges.PodMessageFields | go/internal/api/websocket.go:115-155 | each pod message carries the name, phase, workload and tenant of the pod in its event, and a ready message comes exactly if the event makes the pool status ready |
| WatchEdges.ClaimMessageFields | go/internal/api/websocket.go:207-238 | each claim message carries the name, tenant, workload and source of the claim in its event, and comes exactly at a change to Active or Released or at a deletion |
| WatchEdges.ReadyMessagesAreEdges | go/internal/api/websocket.go:135-145 | as many ready messages for a pod as rising edges to ready since it last did not exist |
| WatchEdges.ClaimMessagesAreEdges | go/internal/api/websocket.go:207-238 | claimed messages are rising edges to Active; released messages are rising edges to Released plus deletions |
| WatchEdges.NotedTracks | go/internal/api/websocket.go:136-155 | the map is the last state of every object that exists |
| Gateways.Gateway.SyncOnce | go/internal/trigger/gateway.go:79-136 | kept are exactly the adapters of triggers still active, as they were; added are adapters of active triggers that can be built, and all of them but those whose Secret could not be read; a failed list changes nothing; each addition is one start |
| Gateways.Gateway.StartActive | go/internal/trigger/gateway.go:89-123 | only active triggers that can be built are started, and all that are sure to build are |
| Gateways.Gateway.BuildAdapter | go/internal/trigger/gateway.go:151-187 | webhook always, cron and telegram only with settings that parse, no other type; cron then always, telegram then unless a Secret has to be read |
| Gateways.Gateway.StopAll | go/internal/trigger/gateway.go:138-149 | afterwards nothing is tracked and every trigger was stopped as often as started |
| Gateways.Gateway.Sync | go/internal/trigger/gateway.go:53-77 | over any sequence of lists every pass is such a pass, the starts are those of the passes, and after the final stop nothing is tracked and each adapter was stopped as often as started |
| Telegrams.TelegramAdapter.PollLoop | go/internal/trigger/adapter_telegram.go:191-269 | over any polls the handler gets exactly the recognised and enabled updates, in order, and the replies are those its results call for; a failed poll changes nothing |
| Telegrams.OffsetIsPast | go/internal/trigger/adapter_telegram.go:229-233 | the offset exceeds every id seen and is 0 or one more than one of them |
| Telegrams.OffsetGrows | go/internal/trigger/adapter_telegram.go:229-233 | with a server that keeps to the offset it never decreases |
| Telegrams.OffsetDropsIff | go/internal/trigger/adapter_telegram.go:230-233 | it decreases exactly on an id of 2^63 - 1 |
| Telegrams.HandledOnce | go/internal/trigger/adapter_telegram.go:229-244 | no update reaches the handler twice, and exactly those do whose first object among message, edited_message and callback_query is of an enabled kind |
| Telegrams.UpdateReads | go/internal/trigger/adapter_telegram.go:427-480 | kind, id and chat of an update, field by field of its JSON |
| Telegrams.OneReplyEach | go/internal/trigger/adapter_telegram.go:246-266 | each handled update from a chat gets exactly one reply attempt to that chat: the text of the result if it is or has a non-empty one, else the apology |
| Telegrams.ReplyText | go/internal/trigger/adapter_telegram.go:604-621 | a non-empty string is the reply, and so is a non-empty field text of an object; the apology otherwise |

## Left out

- The proxy sidecar: credentials, TLS material, Envoy configuration and the ConfigMap are one call that may fail.
- `Translate`, network policy, image resolution: what a pod spec contains beyond labels, port and overlay.
- ClaimCalls.ClaimClient.CreatePod: the random suffix is any that makes a new name.
- Claim creation through the HTTP API, and its object name `claim-<tenant>-<workload>`, which is not injective:
  claims are keyed by object name, and any client may create, touch, delete or strip one.
- Actors that delete pods outside the release paths (instance deletion, workload deletion, eviction) are one
  environment step. `ReapOnlyAfterStore` is about the operator's own deletions.
- OverlayRuns.RevivedWithTheLastOverlay: the pod the claim names still exists when the claim becomes Active, and the
  claim had remembered no other one; `PoolDataIsTrueIff` and `StaleSourceRun` say what can happen if it had.
- FailingRuns: the acts of the pool controller and of the rest of the cluster in these runs are enabled ones; only
  the claim controller's are compared with its decision table.
- PoolReconcilers.PoolReconciler.HandleDeletion: pool deletions count as removals by others, since the claim
  controller has to cope with them like any other.
- The pool object's own resourceVersion and the events that trigger a reconcile; a reconcile may run at any time.
- ClaimCalls.ClaimClient.ExtractAndStore: one act with the outcomes that `ScriptRefinesExtract` justifies, rather
  than the file operations themselves.
- SnapshotFiles.ScriptRefinesExtract: assumes that no archive of the key is a proper prefix of the new one, which
  the trailer of a gzip stream rules out.
- The helper pod's and the volume's own lifecycle: reaching them succeeds or fails.
- PoolFill.FullAfter: the passes are completed and undisturbed; `PoolStaysWithinLimits` covers all the others.
- TokenStores.TokenStore.ColdLookup: atomic, as the split one is shown to be unsound by `SplitLookupResurrects`.
- Scope lists, label and RFC 3339 parsing of token Secrets: an identity and an expiry are taken as read.
- The WebSocket handshake, whose constant is not the GUID of section 1.3 of RFC 6455; FIN, fragmentation and ping
  are ignored by the code and by the model.
- The channel and the WebSocket connection behind the watch loops: messages are collected in order.
- The goroutines of running adapters, webhook and cron adapters, guards and drivers.
- Telegrams.TelegramAdapter.PollLoop: update ids are integers; rounding of ids beyond 2^53 in a float64 is not
  modelled, nor are sender names and the payload.
- Workload and trigger controllers, authentication scopes, debug and stats routes, the dashboard.
