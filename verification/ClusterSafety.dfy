/** What every legal run of the cluster keeps. */
module ClusterSafety {
  import opened Wrappers
  import opened Cluster

  // ---- Invariants ---------------------------------------------------------

  ghost predicate NamesInv(w: World) {
    && w.pods.Keys <= w.used
    && w.disks.Keys == w.pods.Keys
    && (forall p :: p in w.pods ==> w.pods[p].rv <= w.rv)
    && (forall c :: c in w.claims ==> w.claims[c].rv <= w.rv)
  }

  /** A pool pod has no tenant before it is acquired, and any other pod has one. */
  ghost predicate LabelsInv(w: World) {
    forall p :: p in w.pods ==> (w.pods[p].tenant == None <==> w.pods[p].status in {Warming, Ready})
  }

  /** At most one pod per tenant and workload. */
  ghost predicate OnePodInv(w: World) {
    forall p, q :: p in w.pods && q in w.pods && w.pods[p].tenant.Some?
                   && w.pods[p].tenant == w.pods[q].tenant && w.pods[p].workload == w.pods[q].workload
                   ==> p == q
  }

  ghost predicate ClaimOk(w: World, c: Claim) {
    && (c.status.instance.Some? ==> Mine(w, c.status.instance.value, c.key))
    && (c.status.phase in {Pending, Active, Error, ReleaseFailed} ==> c.finalizer)
    && (c.status.phase == Active ==>
          && c.status.claimedAt.Some? && c.status.instance.Some?
          && c.status.endpoint.Some? && c.status.endpoint.value.host != "")
    && (Fresh(c.status.phase) && c.status.source == FromPoolData ==>
          c.status.instance.Some? && InjectedFor(w, c.status.instance.value, c.key))
    && (c.status.phase == Active && c.status.source == FromPoolData ==> exists q :: InjectedFor(w, q, c.key))
  }

  ghost predicate InjectedInv(w: World) {
    forall p :: p in w.injected ==>
      Mine(w, p, w.injected[p].key) && (p in w.pods ==> w.pods[p].status == Acquired)
  }

  ghost predicate ClaimsInv(w: World) {
    && (forall c :: c in w.claims ==> ClaimOk(w, w.claims[c]))
    && (w.turn.Some? ==> ClaimOk(w, w.turn.value.claim))
  }

  /** An overlay recorded as saved in this reconcile, of a pod that still exists, is in the store. */
  ghost predicate SavedInv(w: World) {
    w.turn.Some? ==>
      var t := w.turn.value;
      forall p :: p in t.saved ==>
        && |t.views| > 0 && TurnAction(t) == Hibernate
        && Mine(w, p, t.claim.key)
        && (p in w.pods && t.saved[p] != [] ==>
              t.claim.key in w.snaps && w.snaps[t.claim.key] == Good(t.saved[p]))
  }

  /** No two Secrets ever hold the same token. */
  ghost predicate TokensInv(w: World) {
    && (forall c :: c in w.secrets ==> w.secrets[c].token < w.minted)
    && (forall c, d :: c in w.secrets && d in w.secrets && w.secrets[c].token == w.secrets[d].token ==> c == d)
  }

  ghost predicate CapsInv(w: World) {
    forall wl :: wl in w.pools ==>
      |PoolPods(w, wl)| <= w.pools[wl].size && |WarmingPods(w, wl)| <= w.pools[wl].cap
  }

  ghost predicate Inv(w: World) {
    NamesInv(w) && LabelsInv(w) && OnePodInv(w) && CapsInv(w)
    && InjectedInv(w) && ClaimsInv(w) && SavedInv(w) && TokensInv(w)
  }

  lemma InitInv(w: World)
    requires Init(w)
    ensures Inv(w)
  {
    forall wl | wl in w.pools
      ensures |PoolPods(w, wl)| <= w.pools[wl].size && |WarmingPods(w, wl)| <= w.pools[wl].cap
    {
      assert PoolPods(w, wl) == {} && WarmingPods(w, wl) == {};
    }
  }

  // ---- What one act may change in each part of the world ------------------------

  /** A pod's labels only move warming -> ready -> acquired, and it gets its tenant with the last move. */
  ghost predicate LabelMove(p: Pod, q: Pod) {
    && p.workload == q.workload
    && ((p.tenant == q.tenant && p.status == q.status)
        || (p.tenant == q.tenant && p.status == Warming && q.status == Ready)
        || (p.tenant == None && p.status == Ready && q.tenant.Some? && q.status == Acquired))
  }

  ghost predicate NewLabels(pod: Pod) {
    (pod.tenant == None && pod.status == Warming) || (pod.tenant.Some? && pod.status == NoPool)
  }

  ghost predicate PodEditOk(w: World, e: Edit<Pod>) {
    e.Put? ==>
      var p, pod := e.name, e.value;
      && pod.rv == w.rv + 1
      && (p in w.pods ==> LabelMove(w.pods[p], pod))
      && (p !in w.pods ==> p !in w.used && NewLabels(pod))
      && (pod.tenant.Some? && !(p in w.pods && w.pods[p].tenant.Some?) ==>
            TenantPods(w, Key(pod.tenant.value, pod.workload)) == {})
      && (p !in w.pods && pod.status == Warming ==> Room(w, pod.workload))
  }

  /** The pool has a free place and a free fill slot. */
  ghost predicate Room(w: World, wl: string) {
    && wl in w.pools
    && |PoolPods(w, wl)| < w.pools[wl].size && |WarmingPods(w, wl)| < w.pools[wl].cap
  }

  lemma PodEditIsOk(w: World, a: Act)
    requires Enabled(w, a) && LabelsInv(w) && NamesInv(w)
    ensures PodEditOk(w, PodEdit(w, a))
    ensures var e := PodEdit(w, a); e.Put? && e.name !in w.pods ==> UsedAfter(w, a) == w.used + {e.name}
    ensures var e := PodEdit(w, a); e.Put? && e.name in w.pods ==> UsedAfter(w, a) == w.used
    ensures var e := PodEdit(w, a); !e.Put? ==> UsedAfter(w, a) == w.used
  {
    hide MayWrite, MustSave, Ending, Unmoved;
    if a.CAcquire? || a.CCreate? {
      var k := w.turn.value.claim.key;
      assert Key(k.tenant, k.workload) == k;
    }
  }

  /** Everything later lemmas need to know about how pods changed. */
  ghost predicate PodsMove(w: World, w': World) {
    && w.used <= w'.used
    && (forall p :: p in w'.pods ==>
          if p in w.pods then LabelMove(w.pods[p], w'.pods[p]) else p !in w.used && p in w'.used)
  }

  lemma PodsMoved(w: World, w': World, e: Edit<Pod>)
    requires PodEditOk(w, e) && w'.pods == Edited(w.pods, e)
    requires w'.used == if e.Put? then w.used + {e.name} else w.used
    ensures PodsMove(w, w')
  {
  }

  lemma LabelsMoved(w: World, w': World, e: Edit<Pod>)
    requires PodEditOk(w, e) && w'.pods == Edited(w.pods, e) && LabelsInv(w)
    ensures LabelsInv(w')
  {
  }

  lemma OnePodMoved(w: World, w': World, e: Edit<Pod>)
    requires PodEditOk(w, e) && w'.pods == Edited(w.pods, e) && OnePodInv(w)
    ensures OnePodInv(w')
  {
    if e.Put? && e.value.tenant.Some? {
      var k := Key(e.value.tenant.value, e.value.workload);
      assert forall q :: q in w.pods && Bound(w.pods[q], k) ==> q in TenantPods(w, k);
    }
  }

  /** A pod is injected at most once: what was recorded stays. */
  ghost predicate InjectedMove(w: World, w': World) {
    forall p :: p in w.injected ==> p in w'.injected && w'.injected[p] == w.injected[p]
  }

  // ---- Claims -------------------------------------------------------------------

  /** Phases only move empty/Error -> Pending, Pending -> Active/Error, Active -> Released/ReleaseFailed. */
  ghost predicate PhaseMove(p: Phase, q: Phase) {
    || p == q
    || (p in {NoPhase, Error, Releasing} && q == Pending)
    || (p == Pending && q in {Active, Error})
    || (p == Active && q in {Released, ReleaseFailed})
  }

  ghost predicate ClaimEditOk(w: World, e: Edit<Claim>) {
    e.Put? ==>
      var c, claim := e.name, e.value;
      && claim.rv == w.rv + 1
      && ClaimOk(w, claim)
      && (c in w.claims ==> claim.key == w.claims[c].key && claim.uid == w.claims[c].uid
                            && PhaseMove(w.claims[c].status.phase, claim.status.phase))
      && (c !in w.claims ==> claim.status == NEW_STATUS && !claim.finalizer && !claim.deleting)
  }

  lemma ClaimEditIsOk(w: World, a: Act)
    requires Enabled(w, a) && ClaimsInv(w)
    ensures ClaimEditOk(w, ClaimEdit(w, a))
  {
  }

  lemma ClaimOkStays(w: World, w': World, c: Claim)
    requires PodsMove(w, w') && InjectedMove(w, w') && ClaimOk(w, c)
    ensures ClaimOk(w', c)
  {
    if c.status.phase == Active && c.status.source == FromPoolData {
      var q :| InjectedFor(w, q, c.key);
      assert InjectedFor(w', q, c.key);
    }
  }

  lemma InjectedStep(w: World, a: Act)
    requires Enabled(w, a) && InjectedInv(w) && PodsMove(w, Apply(w, a))
    ensures InjectedMove(w, Apply(w, a)) && InjectedInv(Apply(w, a))
  {
    hide MayWrite, MustSave, Ending, Unmoved, ClaimEdit, SecretEdit, PodEdit, DisksAfter, SnapsAfter;
  }

  lemma ClaimsMoved(w: World, w': World, e: Edit<Claim>)
    requires ClaimEditOk(w, e) && w'.claims == Edited(w.claims, e) && ClaimsInv(w)
    requires PodsMove(w, w') && InjectedMove(w, w')
    requires w'.turn.Some? ==>
               || (w.turn.Some? && w'.turn.value.claim == w.turn.value.claim)
               || (w'.turn.value.name in w.claims && w'.turn.value.claim == w.claims[w'.turn.value.name])
    ensures ClaimsInv(w')
  {
    forall c | c in w'.claims
      ensures ClaimOk(w', w'.claims[c])
    {
      ClaimOkStays(w, w', w'.claims[c]);
    }
    if w'.turn.Some? {
      ClaimOkStays(w, w', w'.turn.value.claim);
    }
  }

  // ---- Names, pool caps, tokens, saved overlays ------------------------------------

  lemma NamesMoved(w: World, w': World, e: Edit<Pod>, f: Edit<Claim>)
    requires PodEditOk(w, e) && w'.pods == Edited(w.pods, e)
    requires ClaimEditOk(w, f) && w'.claims == Edited(w.claims, f)
    requires w'.used == if e.Put? then w.used + {e.name} else w.used
    requires w'.disks.Keys == w'.pods.Keys && w'.rv == w.rv + 1 && NamesInv(w)
    ensures NamesInv(w')
  {
  }

  lemma DisksStep(w: World, a: Act)
    requires Enabled(w, a) && NamesInv(w)
    ensures DisksAfter(w, a).Keys == Edited(w.pods, PodEdit(w, a)).Keys
  {
    var e := PodEdit(w, a);
    if e.Put? {
      assert DisksAfter(w, a).Keys == w.disks.Keys + {e.name};
    } else if e.Drop? {
      assert DisksAfter(w, a).Keys == w.disks.Keys - {e.name};
    } else {
      assert DisksAfter(w, a).Keys == w.disks.Keys;
    }
  }

  lemma CardLe<T>(a: set<T>, b: set<T>)
    requires a <= b
    ensures |a| <= |b|
  {
    if a != {} {
      var x :| x in a;
      CardLe(a - {x}, b - {x});
    }
  }

  lemma CapMoved(w: World, w': World, e: Edit<Pod>, wl: string)
    requires PodEditOk(w, e) && w'.pods == Edited(w.pods, e) && wl in w.pools
    requires |PoolPods(w, wl)| <= w.pools[wl].size && |WarmingPods(w, wl)| <= w.pools[wl].cap
    ensures |PoolPods(w', wl)| <= w.pools[wl].size && |WarmingPods(w', wl)| <= w.pools[wl].cap
  {
    if e.Put? && e.name !in w.pods && e.value.status == Warming && e.value.workload == wl {
      CardLe(PoolPods(w', wl), PoolPods(w, wl) + {e.name});
      CardLe(WarmingPods(w', wl), WarmingPods(w, wl) + {e.name});
    } else {
      CardLe(PoolPods(w', wl), PoolPods(w, wl));
      CardLe(WarmingPods(w', wl), WarmingPods(w, wl));
    }
  }

  lemma CapsMoved(w: World, w': World, e: Edit<Pod>)
    requires PodEditOk(w, e) && w'.pods == Edited(w.pods, e) && w'.pools == w.pools && CapsInv(w)
    ensures CapsInv(w')
  {
    forall wl | wl in w'.pools
      ensures |PoolPods(w', wl)| <= w'.pools[wl].size && |WarmingPods(w', wl)| <= w'.pools[wl].cap
    {
      CapMoved(w, w', e, wl);
    }
  }

  lemma TokensStep(w: World, a: Act)
    requires Enabled(w, a) && TokensInv(w)
    ensures TokensInv(Apply(w, a))
  {
    var e := SecretEdit(w, a);
    assert e.Put? ==> e.value.token == w.minted && a.CMint?;
  }

  /** Between two acts the saved overlays, the reads and the store change only like this. */
  lemma SavedStep(w: World, a: Act)
    requires Enabled(w, a) && SavedInv(w) && OnePodInv(w) && PodsMove(w, Apply(w, a))
    requires forall p :: p in w.disks ==> p in w.pods
    ensures SavedInv(Apply(w, a))
  {
    var w' := Apply(w, a);
    if a.CBegin? || w.turn.None? {
      assert w'.turn.Some? ==> w'.turn.value.saved == map[];
    } else {
      var t, t' := w.turn.value, w'.turn.value;
      assert t'.claim == t.claim;
      if a.CExtract? {
      } else if a.CRead? {
        assert t'.saved == t.saved && w'.snaps == w.snaps;
      } else {
        assert t' == t;
      }
    }
  }

  // ---- Every step, every run ---------------------------------------------------------

  lemma StepMoves(w: World, a: Act)
    requires Enabled(w, a) && LabelsInv(w) && NamesInv(w)
    ensures PodsMove(w, Apply(w, a))
  {
    PodEditIsOk(w, a);
    assert UsedAfter(w, a) == if PodEdit(w, a).Put? then w.used + {PodEdit(w, a).name} else w.used;
    PodsMoved(w, Apply(w, a), PodEdit(w, a));
  }

  lemma StepPods(w: World, a: Act)
    requires Enabled(w, a) && Inv(w)
    ensures var w' := Apply(w, a); NamesInv(w') && LabelsInv(w') && OnePodInv(w') && CapsInv(w')
  {
    hide LabelsInv, OnePodInv, CapsInv, InjectedInv, ClaimsInv, SavedInv, TokensInv;
    var w', e, f := Apply(w, a), PodEdit(w, a), ClaimEdit(w, a);
    PodEditIsOk(w, a);
    ClaimEditIsOk(w, a);
    DisksStep(w, a);
    assert w'.used == if e.Put? then w.used + {e.name} else w.used;
    NamesMoved(w, w', e, f);
    LabelsMoved(w, w', e);
    OnePodMoved(w, w', e);
    CapsMoved(w, w', e);
  }

  lemma StepClaims(w: World, a: Act)
    requires Enabled(w, a) && Inv(w)
    ensures InjectedInv(Apply(w, a)) && ClaimsInv(Apply(w, a))
  {
    StepMoves(w, a);
    ClaimEditIsOk(w, a);
    InjectedStep(w, a);
    ClaimsMoved(w, Apply(w, a), ClaimEdit(w, a));
  }

  lemma StepInv(w: World, a: Act)
    requires Enabled(w, a) && Inv(w)
    ensures Inv(Apply(w, a))
  {
    StepPods(w, a);
    StepClaims(w, a);
    StepMoves(w, a);
    TokensStep(w, a);
    SavedStep(w, a);
  }

  lemma {:induction false} RunInv(init: World, acts: seq<Act>)
    requires Inv(init) && Legal(init, acts)
    ensures Inv(Exec(init, acts))
    decreases |acts|
  {
    if acts != [] {
      var before := acts[..|acts| - 1];
      RunInv(init, before);
      StepInv(Exec(init, before), acts[|acts| - 1]);
    }
  }
}
