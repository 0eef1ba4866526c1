/** What a claim's reconciles add up to: progress to Active, and no way past a failed extraction. */
module ClaimProgress {
  import opened Cluster
  import opened ClusterSafety
  import opened ClaimPlan
  import opened ClaimReconcilers

  // ---- What a list of the controller's acts does to its claim -----------------------

  /** Acts of the path that begins a tenancy, other than the write of the claim. */
  ghost predicate Building(a: Act) {
    a.CRead? || a.CAcquire? || a.CCreate? || a.CMint? || a.CInject?
  }

  /** The reconcile of this claim is still going on and has not written it. */
  ghost predicate Underway(w: World, name: string, c: Claim) {
    w.turn.Some? && w.turn.value.name == name && w.turn.value.claim == c && name in w.claims && w.claims[name] == c
  }

  lemma InvGives(w: World)
    requires Inv(w)
    ensures LabelsInv(w) && NamesInv(w)
  {
  }

  lemma BuildStep(w: World, a: Act, name: string, c: Claim)
    requires Enabled(w, a) && Building(a) && Underway(w, name, c) && Inv(w)
    ensures Underway(Apply(w, a), name, c)
    ensures TenantPods(w, c.key) <= TenantPods(Apply(w, a), c.key)
    ensures a.CAcquire? || a.CCreate? ==> TenantPods(Apply(w, a), c.key) != {}
    ensures Apply(w, a).workloads == w.workloads
  {
    hide NamesInv, LabelsInv, OnePodInv, CapsInv, InjectedInv, ClaimsInv, SavedInv, TokensInv;
    InvGives(w);
    StepMoves(w, a);
    StepInv(w, a);
    if a.CAcquire? || a.CCreate? {
      assert a.pod in TenantPods(Apply(w, a), c.key);
    }
    assert PodEdit(w, a).Drop? ==> false;
  }

  lemma {:induction false} BuildAll(w: World, acts: seq<Act>, name: string, c: Claim)
    requires Inv(w) && Legal(w, acts) && Underway(w, name, c)
    requires forall a :: a in acts ==> Building(a)
    ensures var w' := Exec(w, acts);
            && Inv(w') && Underway(w', name, c) && TenantPods(w, c.key) <= TenantPods(w', c.key)
            && ((exists a :: a in acts && (a.CAcquire? || a.CCreate?)) ==> TenantPods(w', c.key) != {})
            && w'.workloads == w.workloads
    decreases |acts|
  {
    if acts != [] {
      var before, a := acts[..|acts| - 1], acts[|acts| - 1];
      assert acts == before + [a];
      BuildAll(w, before, name, c);
      BuildStep(Exec(w, before), a, name, c);
      StepInv(Exec(w, before), a);
    }
  }

  lemma WriteStep(w: World, a: Act, name: string, c: Claim)
    requires Enabled(w, a) && Underway(w, name, c) && (a.CStatus? || a.CFinalize?)
    ensures var w' := Apply(w, a);
            && w'.pods == w.pods && w'.workloads == w.workloads && name in w'.claims
            && (a.CStatus? ==> w'.claims[name] == c.(status := a.status, rv := w.rv + 1))
            && (a.CFinalize? ==> w'.claims[name] == c.(finalizer := true, rv := w.rv + 1))
  {
  }

  lemma BeginStep(w: World, name: string)
    requires Enabled(w, CBegin(name))
    ensures var w' := Apply(w, CBegin(name));
            Underway(w', name, w.claims[name]) && w'.pods == w.pods && w'.workloads == w.workloads
  {
  }

  /** A reconcile's acts: the beginning, building acts, and at most one write at the end. */
  ghost predicate Shaped(acts: seq<Act>, name: string, build: seq<Act>, write: seq<Act>) {
    && acts == [CBegin(name)] + build + write
    && (forall a :: a in build ==> Building(a))
    && |write| <= 1 && (write != [] ==> write[0].CStatus? || write[0].CFinalize?)
  }

  lemma LegalOne(w: World, a: Act)
    requires Legal(w, [a])
    ensures Enabled(w, a) && Exec(w, [a]) == Apply(w, a)
  {
    assert [a][..0] == [];
  }

  /** The claim and its pods after a reconcile of that shape. */
  lemma ShapedEffect(w: World, acts: seq<Act>, name: string, build: seq<Act>, write: seq<Act>)
    requires Inv(w) && Legal(w, acts) && Shaped(acts, name, build, write) && name in w.claims
    ensures var w' := Exec(w, acts); var c := w.claims[name];
            && name in w'.claims && w'.workloads == w.workloads
            && TenantPods(w, c.key) <= TenantPods(w', c.key)
            && ((exists a :: a in build && (a.CAcquire? || a.CCreate?)) ==> TenantPods(w', c.key) != {})
            && w'.claims[name] == (if write == [] then c
                                   else if write[0].CStatus? then
                                     c.(status := write[0].status, rv := w'.claims[name].rv)
                                   else c.(finalizer := true, rv := w'.claims[name].rv))
  {
    hide Enabled, Apply, Inv, Building;
    var c := w.claims[name];
    assert acts == ([CBegin(name)] + build) + write;
    LegalSplit(w, [CBegin(name)] + build, write);
    LegalSplit(w, [CBegin(name)], build);
    LegalOne(w, CBegin(name));
    BeginStep(w, name);
    StepInv(w, CBegin(name));
    var w1 := Apply(w, CBegin(name));
    BuildAll(w1, build, name, c);
    var w2 := Exec(w1, build);
    assert Exec(w, acts) == Exec(w2, write);
    if write != [] {
      assert write == [write[0]];
      LegalOne(w2, write[0]);
      WriteStep(w2, write[0], name, c);
    }
  }

  // ---- The acts of a reconcile that nothing goes wrong in -------------------------------

  ghost predicate Activation(c: Claim, write: seq<Act>) {
    && |write| <= 1
    && (write != [] ==> write[0].CStatus? && write[0].status.phase in {Pending, Active}
                        && (write[0].status.phase == Pending ==> c.status.phase == Pending))
  }

  ghost predicate Obtains(build: seq<Act>) {
    exists a :: a in build && (a.CAcquire? || a.CCreate?)
  }

  lemma ObtainShape(c: Claim, wl: Workload, s: Seen) returns (build: seq<Act>, write: seq<Act>)
    requires c.status.phase == Pending && NoFailure(s)
    ensures ObtainPlan(c, wl, s).acts == build + write
    ensures (forall a :: a in build ==> Building(a)) && Obtains(build) && Activation(c, write)
  {
    match s.got.poolPod
    case Got(p) =>
      var inject := CInject(p.name, s.got.injected, s.got.junk);
      build := if s.got.hasSnapshot then [CAcquire(p.name), inject] else [CAcquire(p.name)];
      var source := if s.got.hasSnapshot && s.got.injected then FromPoolData else FromPool;
      write := ActivatePlan(c, p, source, s).acts;
      assert build[0] in build;
    case Absent =>
      var p := s.got.created.value;
      build := if !wl.apiDisabled && s.got.token == Minted then [CMint, CCreate(p.name)] else [CCreate(p.name)];
      write := ActivatePlan(c, p, Cold, s).acts;
      assert build[|build| - 1] in build;
  }

  /** What the stored claim looks like from here to Active. */
  ghost predicate OnTheWay(c: Claim) {
    !c.deleting && Fresh(c.status.phase) && (c.status.phase in {Pending, Error} ==> c.finalizer)
  }

  /** The distance of a claim from Active. */
  ghost function Rank(w: World, name: string): nat
    requires name in w.claims
  {
    var c := w.claims[name];
    if c.status.phase == Active then 0
    else if !c.finalizer then 4
    else if c.status.phase != Pending then 3
    else if TenantPods(w, c.key) == {} then 2
    else 1
  }

  ghost predicate PodsRunning(w: World, k: Key) {
    forall p :: p in TenantPods(w, k) ==> w.pods[p].phase == PodRunning && w.pods[p].ip != ""
  }

  ghost predicate WorkloadReady(w: World, wl: string) { wl in w.workloads && w.workloads[wl].ready }

  /** Until the next reconcile the kubelet gets the tenant's pods running, with an IP. */
  ghost predicate Settles(w: World, w': World, name: string) {
    && Inv(w')
    && name in w.claims && name in w'.claims && w'.claims[name] == w.claims[name]
    && var k := w.claims[name].key;
    && TenantPods(w', k) == TenantPods(w, k) && PodsRunning(w', k)
    && (WorkloadReady(w, k.workload) ==> WorkloadReady(w', k.workload))
  }

  /** The shape of the reconcile of a claim on its way, and what it writes. */
  lemma NewShape(w: World, name: string, s: Seen) returns (build: seq<Act>, write: seq<Act>)
    requires name in w.claims && OnTheWay(w.claims[name])
    requires var k := w.claims[name].key; WorkloadReady(w, k.workload) && PodsRunning(w, k)
    requires TrueOfReconcile(w, name, s) && NoFailure(s)
    ensures Shaped(ReconcilePlan(name, w.snapshots, s).acts, name, build, write)
    ensures var c := w.claims[name];
            && (!c.finalizer ==> write == [CFinalize])
            && (c.finalizer && c.status.phase != Pending ==> write == [CStatus(c.status.(phase := Pending))])
            && (c.finalizer && c.status.phase == Pending ==> Activation(c, write))
            && (c.finalizer && c.status.phase == Pending && TenantPods(w, c.key) == {} ==> Obtains(build))
            && (c.finalizer && c.status.phase == Pending && TenantPods(w, c.key) != {} ==>
                  write != [] && write[0].status.phase == Active)
  {
    var c := w.claims[name];
    var acts := ReconcilePlan(name, w.snapshots, s).acts;
    if !c.finalizer {
      build, write := [], [CFinalize];
    } else if c.status.phase != Pending {
      build, write := [], [CStatus(c.status.(phase := Pending))];
    } else {
      var wl := w.workloads[c.key.workload];
      assert s.first == Found(wl);
      if s.tenantPod.Absent? {
        build, write := ObtainShape(c, wl, s);
        build := [CRead(s.first)] + build;
        assert acts == [CBegin(name)] + ([CRead(s.first)] + ObtainPlan(c, wl, s).acts);
        assert exists a :: a in build[1..] && (a.CAcquire? || a.CCreate?);
      } else {
        var p := s.tenantPod.value;
        assert p.name in TenantPods(w, c.key);
        build, write := [CRead(s.first)], ActivatePlan(c, p, Existing, s).acts;
        assert acts == [CBegin(name)] + ([CRead(s.first)] + write);
      }
    }
    assert acts == [CBegin(name)] + build + write;
  }

  /** With the workload ready, no API errors and the tenant's pods running by the next reconcile, every
      reconcile of a claim that is not yet Active brings it strictly closer. */
  lemma ReconcileComesCloser(w: World, name: string, s: Seen, w': World, w'': World)
    requires Inv(w) && name in w.claims && OnTheWay(w.claims[name])
    requires var k := w.claims[name].key; WorkloadReady(w, k.workload) && PodsRunning(w, k)
    requires Reconciles(w, name, s, w') && Settles(w', w'', name)
    ensures Rank(w'', name) < Rank(w, name) <= 4
    ensures Rank(w'', name) > 0 ==> OnTheWay(w''.claims[name])
    ensures var k := w''.claims[name].key;
            k == w.claims[name].key && WorkloadReady(w'', k.workload) && PodsRunning(w'', k)
  {
    hide Inv, Enabled, Apply, Legal, Exec, TrueOfReconcile;
    var build, write := NewShape(w, name, s);
    ShapedEffect(w, ReconcilePlan(name, w.snapshots, s).acts, name, build, write);
  }

  /** A run of undisturbed reconciles of one claim: ss[i] are the answers of reconcile i, after which the
      world settles from mid[i] into ws[i + 1]. */
  ghost predicate Served(ws: seq<World>, mid: seq<World>, ss: seq<Seen>, name: string) {
    && |ws| == |ss| + 1 && |mid| == |ss|
    && (forall i :: 0 <= i < |ss| ==> Reconciles(ws[i], name, ss[i], mid[i]) && Settles(mid[i], ws[i + 1], name))
  }

  lemma {:induction false} ServedWithin(ws: seq<World>, mid: seq<World>, ss: seq<Seen>, name: string)
    requires Served(ws, mid, ss, name) && Inv(ws[0]) && name in ws[0].claims
    requires var c := ws[0].claims[name];
             && (c.status.phase == Active || OnTheWay(c))
             && WorkloadReady(ws[0], c.key.workload) && PodsRunning(ws[0], c.key)
    requires |ss| >= Rank(ws[0], name)
    ensures exists i :: 0 <= i <= Rank(ws[0], name) && name in ws[i].claims && ws[i].claims[name].status.phase == Active
    decreases |ss|
  {
    hide Reconciles, WorkloadReady, PodsRunning, TenantPods, Inv;
    if ws[0].claims[name].status.phase == Active {
      assert Rank(ws[0], name) == 0;
    } else {
      assert Reconciles(ws[0], name, ss[0], mid[0]) && Settles(mid[0], ws[1], name);
      ReconcileComesCloser(ws[0], name, ss[0], mid[0], ws[1]);
      assert Served(ws[1..], mid[1..], ss[1..], name) by {
        forall i | 0 <= i < |ss[1..]|
          ensures Reconciles(ws[1..][i], name, ss[1..][i], mid[1..][i]) && Settles(mid[1..][i], ws[1..][i + 1], name)
        {
          assert Reconciles(ws[i + 1], name, ss[i + 1], mid[i + 1]) && Settles(mid[i + 1], ws[i + 2], name);
        }
      }
      ServedWithin(ws[1..], mid[1..], ss[1..], name);
      var j :| 0 <= j <= Rank(ws[1], name) && name in ws[1..][j].claims
               && ws[1..][j].claims[name].status.phase == Active;
      assert ws[j + 1] == ws[1..][j];
    }
  }

  /** A new claim is Active after at most four reconciles. */
  lemma ActiveAfterFourReconciles(ws: seq<World>, mid: seq<World>, ss: seq<Seen>, name: string)
    requires Served(ws, mid, ss, name) && |ss| == 4 && Inv(ws[0]) && name in ws[0].claims
    requires var c := ws[0].claims[name];
             OnTheWay(c) && WorkloadReady(ws[0], c.key.workload) && PodsRunning(ws[0], c.key)
    ensures exists i :: 0 <= i <= 4 && name in ws[i].claims && ws[i].claims[name].status.phase == Active
  {
    ServedWithin(ws, mid, ss, name);
  }

  // ---- A failed extraction stops the release -------------------------------------------------

  /** The idle deadline is over, counted from the last activity or, if none was noted, from the claim time. */
  ghost predicate IdleOver(c: Claim, s: Seen) {
    && s.first.Found? && s.first.wl.timeout > 0
    && match c.lastActivity
       case Some(t) => s.now - t >= s.first.wl.timeout
       case None => c.status.claimedAt.Some? && s.now - c.status.claimedAt.value >= s.first.wl.timeout
  }

  /** The reconcile is ending a tenancy whose overlay has to be stored first: the claim is deleted and
      its workload is a readable hibernate one with overlay dirs, or the idle deadline of an active
      claim is over and the second read says the same. */
  ghost predicate OverlayAtStake(snapshots: bool, s: Seen) {
    && snapshots && s.claim.Got? && s.tenantPod.Got? && s.first.Found? && s.first.wl.action in {Unset, Hibernate}
    && var c := s.claim.value;
    && (if c.deleting then c.finalizer && s.first.wl.overlay
        else && c.status.phase == Active && !(c.status.instance.Some? && s.instanceGone) && IdleOver(c, s)
             && s.second.Found? && s.second.wl.overlay)
  }

  /** For every pattern of extract failures: if no attempt succeeded the pod, the token and the finalizer are
      left alone, no snapshot is deleted, and an idle claim becomes ReleaseFailed.  What the attempts themselves
      leave in the store is the subject of ReleaseLimits.FailedReleaseKeepsSnapshotIff. */
  lemma FailedExtractionStopsRelease(name: string, s: Seen)
    requires OverlayAtStake(true, s) && !Extracted(s.extractions)
    ensures var plan := ReconcilePlan(name, true, s);
            && (forall a :: a in plan.acts ==> !a.CDelete? && !a.CUnfinalize? && !a.CRevoke? && !a.CDropSnap?)
            && (s.claim.value.deleting ==> plan.result == After(RELEASE_FAILED_REQUEUE))
            && (!s.claim.value.deleting && s.wrote ==>
                  && plan.result == After(RELEASE_FAILED_REQUEUE)
                  && plan.acts[|plan.acts| - 1]
                     == CStatus(s.claim.value.status.(phase := ReleaseFailed, detail := ExtractFailed)))
  {
    hide RemovePlan, DeletePlan, SavedPlan, NewClaimPlan;
    var p := s.tenantPod.value.name;
    if s.claim.value.deleting {
      assert ReconcilePlan(name, true, s)
             == Then(CBegin(name), Then(CRead(s.first),
                  Prepend(ExtractActs(p, s.extractions), Plan([], After(RELEASE_FAILED_REQUEUE)))));
    } else {
      assert ReconcilePlan(name, true, s)
             == Then(CBegin(name), Then(CRead(s.first), Then(CRead(s.second),
                  Prepend(ExtractActs(p, s.extractions), ReleaseFailedPlan(s.claim.value, s)))));
    }
    hide ReconcilePlan;
  }

  /** And if an attempt succeeded, the reconcile goes on to delete the pod, revoke the token and finish,
      in that order, stopping at the first call that fails. */
  lemma SuccessfulExtractionReleases(name: string, s: Seen)
    requires OverlayAtStake(true, s) && Extracted(s.extractions)
    requires s.podDeleted == Removed && s.revoked == Removed && s.wrote
    ensures var plan := ReconcilePlan(name, true, s); var n := |plan.acts|;
            && n >= 4 && plan.result == Done
            && plan.acts[n - 4] == CExtract(s.tenantPod.value.name, Stored)
            && plan.acts[n - 3] == CDelete(s.tenantPod.value.name, Reap)
            && plan.acts[n - 2] == CRevoke
            && plan.acts[n - 1] == (if s.claim.value.deleting then CUnfinalize
                                    else ReleasedAct(s.claim.value, Hibernate))
  {
    var p := s.tenantPod.value.name;
    var xs := ExtractActs(p, s.extractions);
    assert xs[|xs| - 1] == CExtract(p, Stored);
    var last := if s.claim.value.deleting then CUnfinalize else ReleasedAct(s.claim.value, Hibernate);
    assert SavedPlan(s.tenantPod.value, s, last).acts == xs + [CDelete(p, Reap), CRevoke, last];
    hide RemovePlan, NewClaimPlan, DeletePlan, ExtractActs;
    if s.claim.value.deleting {
      assert ReconcilePlan(name, true, s)
             == Then(CBegin(name), Then(CRead(s.first), SavedPlan(s.tenantPod.value, s, last)));
    } else {
      assert ReconcilePlan(name, true, s)
             == Then(CBegin(name), Then(CRead(s.first), Then(CRead(s.second), SavedPlan(s.tenantPod.value, s, last))));
    }
  }
}
