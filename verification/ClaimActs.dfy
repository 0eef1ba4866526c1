/** What a reconcile of a claim does, act by act: exactly when the decision table takes each kind of act, in what
    order, and how it ends, written out in terms of the claim, the workload and the answers alone. */
module ClaimActs {
  import opened Wrappers
  import opened Cluster
  import opened ClusterSafety
  import opened ClaimPlan
  import opened ClaimReconcilers
  import opened ClaimProgress

  // ---- The two ways a reconcile can go ---------------------------------------------------

  /** The reconcile ends a tenancy: the claim is being deleted, or it is Active and idle for too long. */
  ghost predicate Ends(s: Seen) {
    && s.claim.Got?
    && var c := s.claim.value;
    && if c.deleting then c.finalizer
       else c.status.phase == Active && !(c.status.instance.Some? && s.instanceGone) && IdleOver(c, s)
  }

  /** And it may take the tenant's pod away, if there is one: an overlay at stake has been stored, and the delete
      did not fail. */
  ghost predicate Clears(snapshots: bool, s: Seen) {
    || s.tenantPod.Absent?
    || (s.tenantPod.Got? && s.podDeleted != NotDeleted && (OverlayAtStake(snapshots, s) ==> StoredLast(s)))
  }

  ghost predicate StoredLast(s: Seen) {
    s.extractions != [] && s.extractions[|s.extractions| - 1] == Stored
  }

  /** The action of the workload is to destroy, as far as this reconcile knows. */
  ghost predicate Destroys(snapshots: bool, s: Seen) {
    snapshots && s.first.Found? && s.first.wl.action == Destroy
  }

  // ---- Ending a tenancy ----------------------------------------------------------------------

  lemma RevokeHas(s: Seen, last: Act, x: Act)
    ensures x in RevokePlan(last, s).acts
            <==> (x == CRevoke && s.revoked == Removed) || (x == last && s.revoked != NotDeleted && s.wrote)
  {
  }

  lemma DeleteHas(p: PodRef, s: Seen, last: Act, x: Act)
    ensures x in DeletePlan(p, last, s).acts
            <==> || (x == CDelete(p.name, Reap) && s.podDeleted == Removed)
                 || (s.podDeleted != NotDeleted && x in RevokePlan(last, s).acts)
  {
    hide RevokePlan;
  }

  lemma RemoveHas(p: PodRef, destroy: bool, s: Seen, last: Act, x: Act)
    ensures x in RemovePlan(p, destroy, s, last).acts
            <==> (x == CDropSnap(s.dropped) && destroy) || x in DeletePlan(p, last, s).acts
  {
    hide DeletePlan;
  }

  lemma SaveHas(p: PodRef, s: Seen, last: Act, failed: Plan, x: Act)
    ensures x in SavePlan(p, s, last, failed).acts
            <==> || x in ExtractActs(p.name, s.extractions)
                 || x in (if StoredLast(s) then DeletePlan(p, last, s).acts else failed.acts)
  {
    hide DeletePlan, ExtractActs;
  }

  lemma ExtractHas(p: string, xs: seq<Extraction>, x: Act)
    ensures x in ExtractActs(p, xs) <==> x.CExtract? && x.pod == p && x.extraction in xs
  {
    if x.CExtract? && x.pod == p && x.extraction in xs {
      var i :| 0 <= i < |xs| && xs[i] == x.extraction;
      assert ExtractActs(p, xs)[i] == x;
    }
  }

  /** The last write of an ending: the finalizer goes, or the claim becomes Released with the action in its
      detail. */
  ghost function LastAct(s: Seen): Act
    requires Ends(s)
  {
    var c := s.claim.value;
    if c.deleting then CUnfinalize
    else CStatus(c.status.(phase := Released,
                           detail := IdleTimeout(if s.first.wl.action == Unset then Hibernate else s.first.wl.action)))
  }

  /** What an ending does after it has read the workload. */
  ghost predicate EndHas(snapshots: bool, s: Seen, x: Act)
    requires Ends(s)
  {
    var c := s.claim.value;
    || (x.CDropSnap? && x.removed == s.dropped && s.tenantPod.Got? && Destroys(snapshots, s))
    || (x.CExtract? && OverlayAtStake(snapshots, s) && x.pod == s.tenantPod.value.name && x.extraction in s.extractions)
    || (x.CRead? && x.read == s.second && !c.deleting && s.tenantPod.Got? && snapshots
        && s.first.wl.action in {Unset, Hibernate})
    || (s.tenantPod.Got? && x == CDelete(s.tenantPod.value.name, Reap) && s.podDeleted == Removed
        && Clears(snapshots, s))
    || (x.CRevoke? && s.revoked == Removed && Clears(snapshots, s))
    || (x == LastAct(s) && s.revoked != NotDeleted && s.wrote && Clears(snapshots, s))
    || (!c.deleting && OverlayAtStake(snapshots, s) && !StoredLast(s) && s.wrote
        && x == CStatus(c.status.(phase := ReleaseFailed, detail := ExtractFailed)))
  }

  lemma DeletionHas(snapshots: bool, s: Seen, x: Act)
    requires Ends(s) && s.claim.value.deleting
    ensures x in FinalizePlan(snapshots, s).acts <==> EndHas(snapshots, s, x)
  {
    hide RevokePlan, DeletePlan, RemovePlan, SavePlan, ExtractActs;
    RevokeHas(s, CUnfinalize, x);
    if s.tenantPod.Got? {
      var p := s.tenantPod.value;
      DeleteHas(p, s, CUnfinalize, x);
      RemoveHas(p, Destroys(snapshots, s), s, CUnfinalize, x);
      SaveHas(p, s, CUnfinalize, Plan([], After(RELEASE_FAILED_REQUEUE)), x);
      ExtractHas(p.name, s.extractions, x);
    }
  }

  lemma ReleaseHas(snapshots: bool, s: Seen, x: Act)
    requires Ends(s) && !s.claim.value.deleting
    ensures x in ReleasePlan(s.claim.value, Resolve(s.first.wl.action), snapshots, s).acts <==> EndHas(snapshots, s, x)
  {
    hide RevokePlan, DeletePlan, RemovePlan, SavePlan, ExtractActs;
    var c, last := s.claim.value, LastAct(s);
    RevokeHas(s, last, x);
    if s.tenantPod.Got? {
      var p := s.tenantPod.value;
      DeleteHas(p, s, last, x);
      RemoveHas(p, Destroys(snapshots, s), s, last, x);
      SaveHas(p, s, last, ReleaseFailedPlan(c, s), x);
      ExtractHas(p.name, s.extractions, x);
    }
  }

  lemma EndRoute(name: string, snapshots: bool, s: Seen)
    requires Ends(s)
    ensures ReconcilePlan(name, snapshots, s).acts
            == [CBegin(name), CRead(s.first)]
               + if s.claim.value.deleting then FinalizePlan(snapshots, s).acts
                 else ReleasePlan(s.claim.value, Resolve(s.first.wl.action), snapshots, s).acts
  {
    hide FinalizePlan, ReleasePlan;
  }

  /** Every act of a reconcile that ends a tenancy. */
  lemma EndingActs(name: string, snapshots: bool, s: Seen, x: Act)
    requires Ends(s)
    ensures x in ReconcilePlan(name, snapshots, s).acts
            <==> x == CBegin(name) || x == CRead(s.first) || EndHas(snapshots, s, x)
  {
    hide FinalizePlan, ReleasePlan, ReconcilePlan, EndHas;
    EndRoute(name, snapshots, s);
    if s.claim.value.deleting {
      DeletionHas(snapshots, s, x);
    } else {
      ReleaseHas(snapshots, s, x);
    }
  }

  // ---- Beginning one --------------------------------------------------------------------------

  /** The claim waits for a pod and its workload is ready. */
  ghost predicate Waits(s: Seen) {
    && s.claim.Got? && s.first.Found? && s.first.wl.ready
    && !s.claim.value.deleting && s.claim.value.finalizer && s.claim.value.status.phase == Pending
  }

  /** The tenant has no pod, or had one that has ended and is out of the way now. */
  ghost predicate NoPodLeft(s: Seen) {
    || s.tenantPod.Absent?
    || (s.tenantPod.Got? && s.tenantPod.value.pod.phase in {PodFailed, PodSucceeded} && s.podDeleted != NotDeleted)
  }

  ghost predicate TakesFromPool(s: Seen) {
    NoPodLeft(s) && s.got.poolPod.Got? && s.got.acquired
  }

  ghost predicate Boots(s: Seen)
    requires s.first.Found?
  {
    && NoPodLeft(s) && s.got.poolPod.Absent?
    && (s.first.wl.apiDisabled || s.got.token != TokenFailed) && s.got.created.Some?
  }

  ghost predicate FindsRunning(s: Seen) {
    s.tenantPod.Got? && s.tenantPod.value.pod.phase == PodRunning
  }

  /** The pod that the claim is to be served with, if the reconcile has found one. */
  ghost function ServedBy(s: Seen): Option<PodRef>
    requires s.first.Found?
  {
    if FindsRunning(s) then Some(s.tenantPod.value)
    else if TakesFromPool(s) then Some(s.got.poolPod.value)
    else if Boots(s) then s.got.created
    else None
  }

  /** How it was obtained. */
  ghost function ServedAs(s: Seen): Source {
    if FindsRunning(s) then Existing
    else if TakesFromPool(s) then (if s.got.hasSnapshot && s.got.injected then FromPoolData else FromPool)
    else Cold
  }

  /** What the claim's status becomes.  With an address it is Active, with the pod's address and port as they were
      read and the time of the write, and a source that an earlier reconcile remembered outranks "existing".  Without
      one the pod and the source are remembered. */
  ghost function ServedStatus(s: Seen): Status
    requires s.claim.Got? && s.first.Found? && ServedBy(s).Some?
  {
    var st, p := s.claim.value.status, ServedBy(s).value;
    if p.pod.ip == "" then st.(source := ServedAs(s), instance := Some(p.name))
    else
      Status(Active, Some(p.name), Some(Endpoint(p.pod.ip, p.pod.port)),
             if FindsRunning(s) && st.source !in {NoSource, Existing} then st.source else ServedAs(s),
             Some(s.now), NoDetail)
  }

  /** What the reconcile of a waiting claim does after it has read the workload. */
  ghost predicate BeginHas(s: Seen, x: Act)
    requires s.claim.Got? && s.first.Found?
  {
    || (s.tenantPod.Got? && s.tenantPod.value.pod.phase in {PodFailed, PodSucceeded} && s.podDeleted == Removed
        && x == CDelete(s.tenantPod.value.name, Terminal))
    || (TakesFromPool(s) && x == CAcquire(s.got.poolPod.value.name))
    || (TakesFromPool(s) && s.got.hasSnapshot && x == CInject(s.got.poolPod.value.name, s.got.injected, s.got.junk))
    || (NoPodLeft(s) && s.got.poolPod.Absent? && !s.first.wl.apiDisabled && s.got.token == Minted && x == CMint)
    || (Boots(s) && x == CCreate(s.got.created.value.name))
    || (ServedBy(s).Some? && s.wrote && s.claim.value.status != ServedStatus(s) && x == CStatus(ServedStatus(s)))
  }

  lemma ActivateHas(c: Claim, p: PodRef, source: Source, s: Seen, x: Act)
    requires c.status.phase == Pending
    ensures var st := if p.pod.ip == "" then c.status.(source := source, instance := Some(p.name))
                      else ActiveStatus(c.status, p, source, s.now);
            x in ActivatePlan(c, p, source, s).acts <==> s.wrote && c.status != st && x == CStatus(st)
  {
  }

  lemma ObtainHas(c: Claim, s: Seen, x: Act)
    requires s.claim == Got(c) && c.status.phase == Pending && s.first.Found? && NoPodLeft(s)
    ensures x in ObtainPlan(c, s.first.wl, s).acts <==> BeginHas(s, x) && !(x.CDelete? && x.reason == Terminal)
  {
    hide ActivatePlan;
    match s.got.poolPod {
      case Got(p) =>
        FromPoolHas(c, p, s, x);
        ActivateHas(c, p, ServedAs(s), s, x);
      case Failed =>
      case Absent =>
        BootHas(c, s, x);
        if s.got.created.Some? {
          ActivateHas(c, s.got.created.value, Cold, s, x);
        }
    }
    hide FromPoolPlan, ColdBootPlan;
  }

  lemma FromPoolHas(c: Claim, p: PodRef, s: Seen, x: Act)
    requires c.status.phase == Pending
    ensures var source := if s.got.hasSnapshot && s.got.injected then FromPoolData else FromPool;
            x in FromPoolPlan(c, p, s).acts
            <==> s.got.acquired && (|| x == CAcquire(p.name)
                                    || (s.got.hasSnapshot && x == CInject(p.name, s.got.injected, s.got.junk))
                                    || x in ActivatePlan(c, p, source, s).acts)
  {
    hide ActivatePlan;
  }

  lemma BootHas(c: Claim, s: Seen, x: Act)
    requires s.first.Found?
    ensures var wl := s.first.wl;
            x in ColdBootPlan(c, wl, s).acts
            <==> || (!wl.apiDisabled && s.got.token == Minted && x == CMint)
                 || ((wl.apiDisabled || s.got.token != TokenFailed) && s.got.created.Some?
                     && (|| x == CCreate(s.got.created.value.name)
                         || x in ActivatePlan(c, s.got.created.value, Cold, s).acts))
  {
    hide ActivatePlan;
  }

  lemma PodHas(c: Claim, s: Seen, x: Act)
    requires s.claim == Got(c) && c.status.phase == Pending && s.first.Found?
    ensures x in PodForClaimPlan(c, s.first.wl, s).acts <==> BeginHas(s, x)
  {
    if NoPodLeft(s) {
      ObtainHas(c, s, x);
    }
    if FindsRunning(s) {
      ActivateHas(c, s.tenantPod.value, Existing, s, x);
    }
    hide ObtainPlan, ActivatePlan;
  }

  lemma BeginRoute(name: string, snapshots: bool, s: Seen)
    requires Waits(s)
    ensures ReconcilePlan(name, snapshots, s).acts
            == [CBegin(name), CRead(s.first)] + PodForClaimPlan(s.claim.value, s.first.wl, s).acts
  {
    hide PodForClaimPlan;
  }

  /** Every act of the reconcile of a waiting claim. */
  lemma BeginningActs(name: string, snapshots: bool, s: Seen, x: Act)
    requires Waits(s)
    ensures x in ReconcilePlan(name, snapshots, s).acts
            <==> x == CBegin(name) || x == CRead(s.first) || BeginHas(s, x)
  {
    hide PodForClaimPlan, ReconcilePlan, BeginHas;
    BeginRoute(name, snapshots, s);
    PodHas(s.claim.value, s, x);
  }

  // ---- All the other reconciles ------------------------------------------------------------------

  /** What a reconcile does that neither ends a tenancy nor has a waiting claim to serve: it reads the workload of
      an Active or Pending claim, and it writes the finalizer, Pending, an error, or that the pod is gone. */
  ghost predicate OtherHas(name: string, s: Seen, x: Act)
    requires s.claim.Got?
  {
    var c := s.claim.value; var st := c.status;
    var gone, early := st.instance.Some? && s.instanceGone, st.phase !in {Active, Released, ReleaseFailed};
    || x == CBegin(name)
    || (!c.deleting && x == CRead(s.first) && ((st.phase == Active && !gone) || (st.phase == Pending && c.finalizer)))
    || (!c.deleting && s.wrote &&
        (|| (early && !c.finalizer && x == CFinalize)
         || (early && c.finalizer && st.phase != Pending && x == CStatus(st.(phase := Pending)))
         || (st.phase == Pending && c.finalizer && s.first == Missing
             && x == CStatus(st.(phase := Error, detail := WorkloadNotFound)))
         || (st.phase == Pending && c.finalizer && s.first.Found? && !s.first.wl.ready
             && x == CStatus(st.(phase := Error, detail := WorkloadNotReady)))
         || (st.phase == Active && gone && x == CStatus(st.(phase := Released, detail := PodGone, endpoint := None)))))
  }

  /** Every act of any other reconcile. */
  lemma OtherActs(name: string, snapshots: bool, s: Seen, x: Act)
    requires s.claim.Got? && !Ends(s) && !Waits(s)
    ensures x in ReconcilePlan(name, snapshots, s).acts <==> OtherHas(name, s, x)
  {
    hide ReleasePlan, FinalizePlan, PodForClaimPlan;
  }

  // ---- Destroying ----------------------------------------------------------------------------------

  /** Exactly when a reconcile deletes the stored snapshot: when it ends the tenancy of a pod of a workload whose
      action is destroy, and there is a store. */
  lemma DropsIff(name: string, snapshots: bool, s: Seen)
    ensures (exists removed :: CDropSnap(removed) in ReconcilePlan(name, snapshots, s).acts)
            <==> Ends(s) && s.tenantPod.Got? && snapshots && s.first.Found? && s.first.wl.action == Destroy
  {
    hide ReconcilePlan, Ends, Clears, OverlayAtStake, TakesFromPool, Boots, NoPodLeft;
    forall removed
      ensures CDropSnap(removed) in ReconcilePlan(name, snapshots, s).acts
              <==> Ends(s) && s.tenantPod.Got? && Destroys(snapshots, s) && removed == s.dropped
    {
      DropIs(name, snapshots, s, removed);
    }
    DropIs(name, snapshots, s, s.dropped);
  }

  lemma DropIs(name: string, snapshots: bool, s: Seen, removed: bool)
    ensures CDropSnap(removed) in ReconcilePlan(name, snapshots, s).acts
            <==> Ends(s) && s.tenantPod.Got? && Destroys(snapshots, s) && removed == s.dropped
  {
    hide Clears, OverlayAtStake, TakesFromPool, Boots, NoPodLeft;
    if !s.claim.Got? {
    } else if Ends(s) {
      EndingActs(name, snapshots, s, CDropSnap(removed));
      hide ReconcilePlan;
    } else if Waits(s) {
      BeginningActs(name, snapshots, s, CDropSnap(removed));
      hide ReconcilePlan;
    } else {
      OtherActs(name, snapshots, s, CDropSnap(removed));
      hide ReconcilePlan;
    }
  }

  /** What the acts of a reconcile without an extraction leave of the snapshot. */
  lemma {:induction false} DroppedStays(w: World, name: string, rest: seq<Act>)
    requires Legal(w, [CBegin(name)] + rest) && name in w.claims
    requires forall a :: a in rest ==> !a.CBegin? && !a.CExtract?
    ensures var w' := Exec(w, [CBegin(name)] + rest);
            && w'.turn.Some? && w'.turn.value.claim == w.claims[name]
            && (CDropSnap(true) in rest ==> w.claims[name].key !in w'.snaps)
    decreases |rest|
  {
    var acts := [CBegin(name)] + rest;
    if rest == [] {
      assert acts == [CBegin(name)] && acts[..0] == [];
      hide Legal;
    } else {
      var before, last := rest[..|rest| - 1], rest[|rest| - 1];
      assert acts[..|acts| - 1] == [CBegin(name)] + before && rest == before + [last];
      DroppedStays(w, name, before);
      DropStep(Exec(w, [CBegin(name)] + before), last, w.claims[name].key);
      hide Enabled, Apply;
    }
  }

  lemma DropStep(w: World, a: Act, k: Key)
    requires Enabled(w, a) && !a.CBegin? && !a.CExtract? && w.turn.Some? && w.turn.value.claim.key == k
    ensures Apply(w, a).turn.Some? && Apply(w, a).turn.value.claim == w.turn.value.claim
    ensures k !in w.snaps || a == CDropSnap(true) ==> k !in Apply(w, a).snaps
  {
  }

  /** After an undisturbed reconcile that ends such a tenancy nothing of the tenant's data is left in the store. */
  lemma DestroyLeavesNothing(w: World, name: string, s: Seen, w': World)
    requires Reconciles(w, name, s, w') && Ends(s) && s.tenantPod.Got? && w.snapshots
    requires s.first.Found? && s.first.wl.action == Destroy
    ensures name in w.claims && w.claims[name].key !in w'.snaps
  {
    hide Legal, Exec, TrueOfRoute, ReconcilePlan;
    DestroyingActs(name, w.snapshots, s);
    var acts := ReconcilePlan(name, w.snapshots, s).acts;
    assert acts == [CBegin(name)] + acts[1..];
    DroppedStays(w, name, acts[1..]);
  }

  lemma DestroyingActs(name: string, snapshots: bool, s: Seen)
    requires Ends(s) && s.tenantPod.Got? && Destroys(snapshots, s)
    ensures var acts := ReconcilePlan(name, snapshots, s).acts;
            && |acts| > 0 && acts[0] == CBegin(name) && CDropSnap(s.dropped) in acts[1..]
            && forall a :: a in acts[1..] ==> !a.CBegin? && !a.CExtract?
  {
    hide ReconcilePlan, Clears, Ends;
    RestHas(name, snapshots, s, CDropSnap(s.dropped));
    forall a
      ensures a in ReconcilePlan(name, snapshots, s).acts[1..] <==> a == CRead(s.first) || EndHas(snapshots, s, a)
      ensures EndHas(snapshots, s, a) ==> !a.CBegin? && !a.CExtract?
    {
      RestHas(name, snapshots, s, a);
      LastIs(s);
    }
  }

  lemma LastIs(s: Seen)
    requires Ends(s)
    ensures LastAct(s).CUnfinalize? || LastAct(s).CStatus?
  {
  }

  lemma RestHas(name: string, snapshots: bool, s: Seen, x: Act)
    requires Ends(s)
    ensures |ReconcilePlan(name, snapshots, s).acts| > 0 && ReconcilePlan(name, snapshots, s).acts[0] == CBegin(name)
    ensures x in ReconcilePlan(name, snapshots, s).acts[1..] <==> x == CRead(s.first) || EndHas(snapshots, s, x)
  {
    hide FinalizePlan, ReleasePlan, ReconcilePlan, EndHas;
    EndRoute(name, snapshots, s);
    if s.claim.value.deleting {
      DeletionHas(snapshots, s, x);
      assert ReconcilePlan(name, snapshots, s).acts[1..] == [CRead(s.first)] + FinalizePlan(snapshots, s).acts;
    } else {
      ReleaseHas(snapshots, s, x);
      assert ReconcilePlan(name, snapshots, s).acts[1..]
             == [CRead(s.first)] + ReleasePlan(s.claim.value, Resolve(s.first.wl.action), snapshots, s).acts;
    }
  }

  // ---- Idle monitoring --------------------------------------------------------------------------------

  /** A reconcile of an Active claim whose pod is there: how long ago the last activity was (or, if none was noted,
      the claim) decides.  Before the deadline nothing is done and it comes back at the deadline. */
  lemma NotYetIdle(name: string, snapshots: bool, s: Seen, since: int)
    requires s.claim.Got? && s.first.Found?
    requires var c := s.claim.value;
             && !c.deleting && c.status.phase == Active && !(c.status.instance.Some? && s.instanceGone)
             && (c.lastActivity == Some(since) || (c.lastActivity == None && c.status.claimedAt == Some(since)))
    ensures s.first.wl.timeout > 0 && s.now - since < s.first.wl.timeout ==>
              ReconcilePlan(name, snapshots, s)
              == Plan([CBegin(name), CRead(s.first)], After(s.first.wl.timeout - (s.now - since)))
    ensures Ends(s) <==> s.first.wl.timeout > 0 && s.now - since >= s.first.wl.timeout
    ensures s.first.wl.timeout <= 0 ==>
              ReconcilePlan(name, snapshots, s) == Plan([CBegin(name), CRead(s.first)], Done)
  {
    hide ReleasePlan;
  }

  /** Without a time to count from it looks again after half a minute. */
  lemma NoReference(name: string, snapshots: bool, s: Seen)
    requires s.claim.Got? && s.first.Found? && s.first.wl.timeout > 0
    requires var c := s.claim.value;
             && !c.deleting && c.status.phase == Active && !(c.status.instance.Some? && s.instanceGone)
             && c.lastActivity == None && c.status.claimedAt == None
    ensures ReconcilePlan(name, snapshots, s) == Plan([CBegin(name), CRead(s.first)], After(30))
  {
    hide ReleasePlan;
  }

  // ---- How a reconcile ends -----------------------------------------------------------------------------

  /** The result for a waiting claim: back in 30 s to watch it once it is Active, in 1 s if its pod has no address
      yet, in 2 s if the pod has not started. */
  lemma BeginningResult(name: string, snapshots: bool, s: Seen)
    requires Waits(s)
    ensures ServedBy(s).Some? ==>
              ReconcilePlan(name, snapshots, s).result
              == if !s.wrote && s.claim.value.status != ServedStatus(s) then Fail
                 else if ServedBy(s).value.pod.ip == "" then After(1) else After(30)
    ensures ServedBy(s).None? ==>
              ReconcilePlan(name, snapshots, s).result
              == if s.tenantPod.Got? && s.tenantPod.value.pod.phase in {PodPending, PodUnknown} then After(2) else Fail
  {
    var c := s.claim.value;
    BeginResultRoute(name, snapshots, s);
    hide ReconcilePlan, ActivatePlan;
    ActivateResult(c, if ServedBy(s).Some? then ServedBy(s).value else NO_POD, ServedAs(s), s);
  }

  lemma ActivateResult(c: Claim, p: PodRef, source: Source, s: Seen)
    requires c.status.phase == Pending
    ensures var st := if p.pod.ip == "" then c.status.(source := source, instance := Some(p.name))
                      else ActiveStatus(c.status, p, source, s.now);
            ActivatePlan(c, p, source, s).result
            == if !s.wrote && c.status != st then Fail else if p.pod.ip == "" then After(1) else After(30)
  {
  }

  lemma BeginResultRoute(name: string, snapshots: bool, s: Seen)
    requires Waits(s)
    ensures ReconcilePlan(name, snapshots, s).result == PodForClaimPlan(s.claim.value, s.first.wl, s).result
  {
    hide PodForClaimPlan;
  }

  /** The result of an ending: back in 300 s if the overlay could not be stored, else done, and an error if a call
      failed. */
  lemma EndingResult(name: string, snapshots: bool, s: Seen)
    requires Ends(s)
    ensures ReconcilePlan(name, snapshots, s).result
            == if OverlayAtStake(snapshots, s) && !StoredLast(s) then
                 if s.claim.value.deleting || s.wrote then After(300) else Fail
               else if Clears(snapshots, s) && s.revoked != NotDeleted && s.wrote then Done
               else Fail
  {
  }

  /** An undisturbed reconcile that finds the tenant's pod running with an address makes the claim Active with that
      pod, its address and its port. */
  lemma ActiveAtItsPod(w: World, name: string, s: Seen, w': World, p: string)
    requires Inv(w) && Reconciles(w, name, s, w') && name in w.claims
    requires var c := w.claims[name];
             && !c.deleting && c.finalizer && c.status.phase == Pending
             && c.key.workload in w.workloads && w.workloads[c.key.workload].ready
             && p in w.pods && w.pods[p].tenant == Some(c.key.tenant) && w.pods[p].workload == c.key.workload
    requires w.pods[p].phase == PodRunning && w.pods[p].ip != ""
    ensures name in w'.claims
    ensures var st := w'.claims[name].status;
            && st.phase == Active && st.instance == Some(p)
            && st.endpoint == Some(Endpoint(w.pods[p].ip, w.pods[p].port)) && st.claimedAt == Some(s.now)
  {
    var c := w.claims[name];
    assert OnePodInv(w);
    assert p in TenantPods(w, c.key);
    assert s.tenantPod == Got(PodRef(p, w.pods[p]));
    AdoptActs(name, w.snapshots, s);
    hide Inv, Legal, Exec, ReconcilePlan, TrueOfReconcile;
    ShapedEffect(w, ReconcilePlan(name, w.snapshots, s).acts, name, [CRead(s.first)], [CStatus(ServedStatus(s))]);
  }

  lemma AdoptActs(name: string, snapshots: bool, s: Seen)
    requires Waits(s) && FindsRunning(s) && s.tenantPod.value.pod.ip != "" && s.wrote
    ensures ReconcilePlan(name, snapshots, s).acts == [CBegin(name)] + [CRead(s.first)] + [CStatus(ServedStatus(s))]
  {
    BeginRoute(name, snapshots, s);
  }

  // ---- In which order --------------------------------------------------------------------------------------

  /** Where an act stands in a reconcile.  The overlay is stored, or the snapshot dropped, before the pod goes; the
      pod goes before the token, and before another one is taken or made; a token is minted before the pod that
      refers to it; and the claim is written last. */
  function Place(a: Act): nat {
    match a
    case CBegin(_) => 0
    case CRead(_) => 1
    case CExtract(_, _) | CDropSnap(_) => 2
    case CDelete(_, _) => 3
    case CRevoke | CMint | CAcquire(_) => 4
    case CInject(_, _, _) | CCreate(_) => 5
    case _ => 6
  }

  /** The acts are in order and none of them comes before this place. */
  ghost predicate InOrder(acts: seq<Act>, first: nat) {
    && (forall i :: 0 <= i < |acts| ==> first <= Place(acts[i]))
    && (forall i, j :: 0 <= i < j < |acts| ==> Place(acts[i]) <= Place(acts[j]))
  }

  lemma ThenInOrder(a: Act, p: Plan, first: nat)
    requires first <= Place(a) && InOrder(p.acts, Place(a))
    ensures InOrder(Then(a, p).acts, first)
  {
  }

  lemma ExtractsInOrder(p: string, xs: seq<Extraction>, rest: Plan)
    requires InOrder(rest.acts, 2)
    ensures InOrder(Prepend(ExtractActs(p, xs), rest).acts, 2)
  {
  }

  lemma RevokeInOrder(s: Seen, last: Act)
    requires Place(last) == 6
    ensures InOrder(RevokePlan(last, s).acts, 4)
  {
  }

  lemma DeleteInOrder(p: PodRef, s: Seen, last: Act)
    requires Place(last) == 6
    ensures InOrder(DeletePlan(p, last, s).acts, 3)
  {
    hide RevokePlan;
    RevokeInOrder(s, last);
  }

  lemma RemoveInOrder(p: PodRef, destroy: bool, s: Seen, last: Act, failed: Plan)
    requires Place(last) == 6 && InOrder(failed.acts, 6)
    ensures InOrder(RemovePlan(p, destroy, s, last).acts, 2) && InOrder(SavePlan(p, s, last, failed).acts, 2)
  {
    hide DeletePlan, ExtractActs;
    DeleteInOrder(p, s, last);
    ExtractsInOrder(p.name, s.extractions, DeletePlan(p, last, s));
    ExtractsInOrder(p.name, s.extractions, failed);
  }

  lemma EndInOrder(c: Claim, snapshots: bool, s: Seen)
    ensures InOrder(FinalizePlan(snapshots, s).acts, 1)
    ensures forall action :: InOrder(ReleasePlan(c, action, snapshots, s).acts, 1)
  {
    hide RevokePlan, RemovePlan, SavePlan;
    var p := if s.tenantPod.Got? then s.tenantPod.value else NO_POD;
    RevokeInOrder(s, CUnfinalize);
    RemoveInOrder(p, false, s, CUnfinalize, Plan([], After(RELEASE_FAILED_REQUEUE)));
    RemoveInOrder(p, true, s, CUnfinalize, Plan([], After(RELEASE_FAILED_REQUEUE)));
    forall action
      ensures InOrder(ReleasePlan(c, action, snapshots, s).acts, 1)
    {
      ReleaseInOrder(c, action, snapshots, s);
    }
  }

  lemma ReleaseInOrder(c: Claim, action: Action, snapshots: bool, s: Seen)
    ensures InOrder(ReleasePlan(c, action, snapshots, s).acts, 1)
  {
    hide RevokePlan, RemovePlan, SavePlan;
    var p := if s.tenantPod.Got? then s.tenantPod.value else NO_POD;
    RevokeInOrder(s, ReleasedAct(c, action));
    RemoveInOrder(p, false, s, ReleasedAct(c, action), ReleaseFailedPlan(c, s));
    RemoveInOrder(p, true, s, ReleasedAct(c, action), ReleaseFailedPlan(c, s));
  }

  lemma ActivateInOrder(c: Claim, p: PodRef, source: Source, s: Seen)
    ensures InOrder(ActivatePlan(c, p, source, s).acts, 6)
  {
  }

  lemma ObtainInOrder(c: Claim, wl: Workload, s: Seen)
    ensures InOrder(ObtainPlan(c, wl, s).acts, 4)
  {
    hide ActivatePlan;
    match s.got.poolPod {
      case Got(p) =>
        ActivateInOrder(c, p, FromPool, s);
        ActivateInOrder(c, p, FromPoolData, s);
      case Failed =>
      case Absent =>
        if s.got.created.Some? {
          ActivateInOrder(c, s.got.created.value, Cold, s);
        }
    }
  }

  lemma PodInOrder(c: Claim, wl: Workload, s: Seen)
    ensures InOrder(PodForClaimPlan(c, wl, s).acts, 3)
  {
    hide ActivatePlan, ObtainPlan;
    ObtainInOrder(c, wl, s);
    if s.tenantPod.Got? {
      ActivateInOrder(c, s.tenantPod.value, Existing, s);
    }
  }

  /** The acts of every reconcile are in this order. */
  lemma ActsInOrder(name: string, snapshots: bool, s: Seen)
    ensures InOrder(ReconcilePlan(name, snapshots, s).acts, 0)
  {
    hide FinalizePlan, ReleasePlan, PodForClaimPlan;
    if s.claim.Got? {
      EndInOrder(s.claim.value, snapshots, s);
      if s.first.Found? {
        PodInOrder(s.claim.value, s.first.wl, s);
      }
    }
  }
}
