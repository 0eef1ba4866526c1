/** Which pods are ever given a tenant's snapshot, and what becomes of the source a claim remembers. */
module ClaimSources {
  import opened Cluster
  import opened ClusterSafety
  import opened ClusterRuns
  import opened OverlayRuns
  import opened ClaimPlan

  // ---- When a reconcile injects ------------------------------------------------------

  ghost predicate Injects(acts: seq<Act>) {
    exists a :: a in acts && a.CInject?
  }

  /** The claim is to get its pod, its workload is ready, and the tenant has no pod that is not terminal. */
  predicate ReachesObtain(s: Seen) {
    && s.claim.Got? && WantsPod(s.claim.value) && s.first.Found? && s.first.wl.ready
    && (s.tenantPod.Absent? || (s.tenantPod.Got? && Terminated(s.tenantPod.value.pod) && s.podDeleted != NotDeleted))
  }

  /** The reconcile finds the tenant's pod and it is not terminal. */
  predicate Adopts(s: Seen) {
    && s.claim.Got? && WantsPod(s.claim.value) && s.first.Found? && s.first.wl.ready
    && s.tenantPod.Got? && !Terminated(s.tenantPod.value.pod)
  }

  lemma EndingInjectsNothing(p: PodRef, s: Seen, last: Act, failed: Plan, destroy: bool)
    requires !last.CInject? && !Injects(failed.acts)
    ensures !Injects(RevokePlan(last, s).acts) && !Injects(RemovePlan(p, destroy, s, last).acts)
    ensures !Injects(SavePlan(p, s, last, failed).acts)
  {
  }

  lemma DeletionInjectsNothing(c: Claim, snapshots: bool, s: Seen)
    ensures !Injects(DeletionPlan(c, snapshots, s).acts)
  {
    hide RevokePlan, SavePlan, RemovePlan;
    var p := if s.tenantPod.Got? then s.tenantPod.value else NO_POD;
    EndingInjectsNothing(p, s, CUnfinalize, Plan([], After(RELEASE_FAILED_REQUEUE)), false);
    EndingInjectsNothing(p, s, CUnfinalize, Plan([], After(RELEASE_FAILED_REQUEUE)), true);
  }

  lemma ActiveInjectsNothing(c: Claim, snapshots: bool, s: Seen)
    ensures !Injects(ActivePlan(c, snapshots, s).acts)
  {
    hide RevokePlan, SavePlan, RemovePlan;
    var p := if s.tenantPod.Got? then s.tenantPod.value else NO_POD;
    var action := if s.first.Found? then Resolve(s.first.wl.action) else Hibernate;
    EndingInjectsNothing(p, s, ReleasedAct(c, action), ReleaseFailedPlan(c, s), false);
    EndingInjectsNothing(p, s, ReleasedAct(c, action), ReleaseFailedPlan(c, s), true);
  }

  lemma ThenInjects(a: Act, p: Plan)
    ensures Injects(Then(a, p).acts) <==> a.CInject? || Injects(p.acts)
  {
    if Injects(p.acts) {
      var b :| b in p.acts && b.CInject?;
      assert b in Then(a, p).acts;
    }
    if a.CInject? {
      assert a in Then(a, p).acts;
    }
  }

  lemma ObtainInjectsIff(c: Claim, wl: Workload, s: Seen)
    ensures Injects(ObtainPlan(c, wl, s).acts) <==> s.got.poolPod.Got? && s.got.acquired && s.got.hasSnapshot
  {
    if s.got.poolPod.Got? && s.got.acquired {
      var p := s.got.poolPod.value;
      ThenInjects(CAcquire(p.name), InjectPlan(c, p, s));
      if s.got.hasSnapshot {
        assert InjectPlan(c, p, s).acts[0].CInject?;
      }
    }
  }

  lemma NewClaimInjectsIff(c: Claim, s: Seen)
    requires s.claim == Got(c) && !c.deleting && Fresh(c.status.phase)
    ensures Injects(NewClaimPlan(c, s).acts)
            <==> ReachesObtain(s) && s.got.poolPod.Got? && s.got.acquired && s.got.hasSnapshot
  {
    if WantsPod(c) {
      ThenInjects(CRead(s.first), WorkloadPlan(c, s));
      if s.first.Found? && s.first.wl.ready {
        ObtainInjectsIff(c, s.first.wl, s);
        if s.tenantPod.Got? && s.podDeleted == Removed {
          ThenInjects(CDelete(s.tenantPod.value.name, Terminal), ObtainPlan(c, s.first.wl, s));
        }
      }
    }
  }

  /** Exactly when a reconcile injects: when the claim is given a pod of the warm pool and a snapshot is there.
      In particular neither a cold boot nor any later reconcile that finds the cold-booted pod does. */
  lemma InjectsIff(name: string, snapshots: bool, s: Seen)
    ensures Injects(ReconcilePlan(name, snapshots, s).acts)
            <==> ReachesObtain(s) && s.got.poolPod.Got? && s.got.acquired && s.got.hasSnapshot
  {
    hide DeletionPlan, ActivePlan, NewClaimPlan;
    if s.claim.Got? {
      var c := s.claim.value;
      ThenInjects(CBegin(name), RoutePlan(c, snapshots, s));
      DeletionInjectsNothing(c, snapshots, s);
      ActiveInjectsNothing(c, snapshots, s);
      if !c.deleting && Fresh(c.status.phase) {
        NewClaimInjectsIff(c, s);
      }
    }
  }

  // ---- Which pods are injected, over whole runs --------------------------------------------

  lemma InjectNeedsAcquired(w: World, a: Act, q: string)
    requires Enabled(w, a) && q in Apply(w, a).injected && q !in w.injected
    ensures a.CInject? && a.pod == q && q in w.pods && w.pods[q].status == Acquired
  {
  }

  /** A pod made by a cold boot is never given a snapshot, in any continuation of any run. */
  lemma {:induction false} ColdPodIsNeverInjected(init: World, acts: seq<Act>, i: nat, j: nat, p: string)
    requires Init(init) && Legal(init, acts) && i < j <= |acts| && acts[i] == CCreate(p)
    ensures p !in At(init, acts, j).injected
    decreases j
  {
    hide Enabled, Apply, Legal, Init, Inv, At, LaterLabels;
    InitInv(init);
    AtColdBoot(init, acts, i, p);
    if j > i + 1 {
      ColdPodIsNeverInjected(init, acts, i, j - 1, p);
      AtStep(init, acts, j - 1);
      if p in At(init, acts, j - 1).pods {
        PodIsBoundOnce(init, acts, i + 1, j - 1, p);
        OutsideThePool(At(init, acts, i + 1).pods[p], At(init, acts, j - 1).pods[p]);
      }
      if p in At(init, acts, j).injected {
        InjectNeedsAcquired(At(init, acts, j - 1), acts[j - 1], p);
      }
    }
  }

  lemma OutsideThePool(p: Pod, q: Pod)
    requires LaterLabels(p, q)
    ensures p.status == NoPool <==> q.status == NoPool
  {
  }

  lemma AtColdBoot(init: World, acts: seq<Act>, i: nat, p: string)
    requires Init(init) && Legal(init, acts) && i < |acts| && acts[i] == CCreate(p)
    ensures var w := At(init, acts, i + 1);
            p in w.used && p in w.pods && w.pods[p].status == NoPool && p !in w.injected
  {
    hide Legal, Init, Inv;
    InitInv(init);
    AtStep(init, acts, i);
    AtInjected(init, acts, i);
  }

  lemma AcquiredBefore(w: World, a: Act, q: string)
    requires Enabled(w, a) && q in Apply(w, a).pods && Apply(w, a).pods[q].status == Acquired
    ensures a == CAcquire(q) || (q in w.pods && w.pods[q].status == Acquired)
  {
  }

  lemma {:induction false} AcquiredHasCause(init: World, acts: seq<Act>, n: nat, q: string) returns (j: nat)
    requires Init(init) && Legal(init, acts) && n <= |acts|
    requires q in At(init, acts, n).pods && At(init, acts, n).pods[q].status == Acquired
    ensures j < n && acts[j] == CAcquire(q)
    decreases n
  {
    if n == 0 {
      assert false;
    } else {
      AtStep(init, acts, n - 1);
      AcquiredBefore(At(init, acts, n - 1), acts[n - 1], q);
      if acts[n - 1] == CAcquire(q) {
        j := n - 1;
      } else {
        j := AcquiredHasCause(init, acts, n - 1, q);
      }
    }
  }

  /** Every pod that is given a snapshot was acquired from the warm pool before. */
  lemma OnlyPoolPodsAreInjected(init: World, acts: seq<Act>, n: nat, q: string) returns (j: nat)
    requires Init(init) && Legal(init, acts) && n < |acts|
    requires q !in At(init, acts, n).injected && q in At(init, acts, n + 1).injected
    ensures j < n && acts[j] == CAcquire(q)
  {
    hide Enabled, Apply, Legal, Init, At;
    AtStep(init, acts, n);
    InjectNeedsAcquired(At(init, acts, n), acts[n], q);
    j := AcquiredHasCause(init, acts, n, q);
  }

  // ---- The source a claim remembers ------------------------------------------------------------

  /** What obtaining a pod calls its source. */
  function ObtainedSource(s: Seen): Source {
    if s.got.poolPod.Got? then (if s.got.hasSnapshot && s.got.injected then FromPoolData else FromPool) else Cold
  }

  /** The status a reconcile leaves: a claim is written by the last act, if at all. */
  ghost function StatusAfter(name: string, snapshots: bool, s: Seen): Status
    requires s.claim.Got?
  {
    var acts := ReconcilePlan(name, snapshots, s).acts;
    if acts != [] && acts[|acts| - 1].CStatus? then acts[|acts| - 1].status else s.claim.value.status
  }

  lemma PendingActs(name: string, snapshots: bool, s: Seen)
    requires s.claim.Got? && WantsPod(s.claim.value)
    ensures ReconcilePlan(name, snapshots, s).acts
            == [CBegin(name), CRead(s.first)] + WorkloadPlan(s.claim.value, s).acts
  {
  }

  /** The pod is seen running without an address, and what is remembered of it is written. */
  predicate SeenWithoutAddress(s: Seen) {
    && s.tenantPod.Got? && s.tenantPod.value.pod.phase == PodRunning && s.tenantPod.value.pod.ip == "" && s.wrote
  }

  /** What one adoption does to a remembered source: it is replaced by "existing" exactly if the pod is seen
      running without an address. */
  lemma AdoptionKeepsSource(name: string, snapshots: bool, s: Seen)
    requires Adopts(s) && s.claim.value.status.source != NoSource
    ensures StatusAfter(name, snapshots, s).source
            == if SeenWithoutAddress(s) then Existing else s.claim.value.status.source
  {
    PendingActs(name, snapshots, s);
    var c, p := s.claim.value, s.tenantPod.value;
    var tail := WorkloadPlan(c, s).acts;
    assert tail == if p.pod.phase == PodRunning then ActivatePlan(c, p, Existing, s).acts else [];
    var acts := ReconcilePlan(name, snapshots, s).acts;
    assert acts[|acts| - 1] == if tail == [] then CRead(s.first) else tail[|tail| - 1];
  }

  /** A new pod brings its own source, whatever was remembered. */
  lemma ObtainingSetsSource(name: string, snapshots: bool, s: Seen)
    requires ReachesObtain(s)
    ensures StatusAfter(name, snapshots, s) == s.claim.value.status
            || StatusAfter(name, snapshots, s).source == ObtainedSource(s)
  {
    PendingActs(name, snapshots, s);
    var c, wl := s.claim.value, s.first.wl;
    var tail := WorkloadPlan(c, s).acts;
    ObtainLast(c, wl, s);
    var acts, obtain := ReconcilePlan(name, snapshots, s).acts, ObtainPlan(c, wl, s).acts;
    assert obtain != [] ==> tail[|tail| - 1] == obtain[|obtain| - 1];
    assert acts[|acts| - 1] == if tail == [] then CRead(s.first) else tail[|tail| - 1];
  }

  lemma ObtainLast(c: Claim, wl: Workload, s: Seen)
    ensures var acts := ObtainPlan(c, wl, s).acts;
            acts != [] && acts[|acts| - 1].CStatus? ==> acts[|acts| - 1].status.source == ObtainedSource(s)
  {
  }

  /** Reconciles of one pending claim, each of which finds the tenant's pod: cs[i] is the claim that reconcile i
      reads, and cs[i + 1] has the status it leaves. */
  ghost predicate Adoptions(name: string, snapshots: bool, cs: seq<Claim>, ss: seq<Seen>) {
    && |cs| == |ss| + 1
    && (forall i :: 0 <= i < |ss| ==>
          && ss[i].claim == Got(cs[i]) && Adopts(ss[i])
          && cs[i + 1].status == StatusAfter(name, snapshots, ss[i]))
  }

  lemma {:induction false} SourceAfterAdoptions(name: string, snapshots: bool, cs: seq<Claim>, ss: seq<Seen>, n: nat)
    requires Adoptions(name, snapshots, cs, ss) && n <= |ss| && cs[0].status.source != NoSource
    ensures cs[n].status.source
            == if exists i :: 0 <= i < n && SeenWithoutAddress(ss[i]) then Existing else cs[0].status.source
  {
    hide StatusAfter, SeenWithoutAddress, Adopts;
    if n > 0 {
      SourceAfterAdoptions(name, snapshots, cs, ss, n - 1);
      AdoptionKeepsSource(name, snapshots, ss[n - 1]);
    }
  }

  /** Exactly when a remembered source survives until the claim is Active: when no reconcile on the way saw the
      pod running without an address.  A claim that was booted cold and whose pod was seen so is reported as
      existing. */
  lemma RememberedSourceSurvivesIff(name: string, snapshots: bool, cs: seq<Claim>, ss: seq<Seen>)
    requires Adoptions(name, snapshots, cs, ss)
    requires cs[0].status.source !in {NoSource, Existing} && cs[|ss|].status.phase == Active
    ensures cs[|ss|].status.source == cs[0].status.source
            <==> forall i :: 0 <= i < |ss| ==> !SeenWithoutAddress(ss[i])
  {
    hide StatusAfter, SeenWithoutAddress, Adopts;
    SourceAfterAdoptions(name, snapshots, cs, ss, |ss|);
  }
}
