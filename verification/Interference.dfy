/** What one controller may count on while the rest of the cluster runs between two of its calls. */
module Interference {
  import opened Wrappers
  import opened Cluster
  import opened ClusterSafety
  import opened ClusterRuns

  // ---- Seen by the claim controller -----------------------------------------------

  /** A copy of a pod read earlier: if the stored pod still has its version, it still is the copy. */
  ghost predicate KnownPod(w: World, p: string, copy: Pod) {
    p in w.used && copy.rv <= w.rv && (p in w.pods && w.pods[p].rv == copy.rv ==> w.pods[p] == copy)
  }

  ghost predicate KnownClaim(w: World, c: string, copy: Claim) {
    copy.rv <= w.rv && (c in w.claims && w.claims[c].rv == copy.rv ==> w.claims[c] == copy)
  }

  /** The world w may have become w' without any act of the claim controller. */
  ghost predicate ClaimRely(w: World, w': World) {
    && w'.turn == w.turn && w'.snaps == w.snaps && w'.injected == w.injected && w'.minted == w.minted
    && w'.snapshots == w.snapshots && w.now <= w'.now && w.rv <= w'.rv && w.used <= w'.used
    && (forall c :: c in w'.secrets ==> c in w.secrets && w'.secrets[c] == w.secrets[c])
    && (forall p :: p in w'.pods ==>
          if p in w.pods then
            && w'.pods[p].tenant == w.pods[p].tenant && w'.pods[p].workload == w.pods[p].workload
            && (Terminated(w.pods[p]) ==> Terminated(w'.pods[p]))
            && (w.pods[p].status == Acquired ==> w'.pods[p].status == Acquired)
            && (w'.pods[p] == w.pods[p] || w'.pods[p].rv > w.rv)
          else p !in w.used && w'.pods[p].tenant == None && w'.pods[p].rv > w.rv)
    && (forall c :: c in w'.claims ==> (c in w.claims && w'.claims[c] == w.claims[c]) || w'.claims[c].rv > w.rv)
  }

  lemma ClaimRelyRefl(w: World)
    ensures ClaimRely(w, w)
  {
  }

  lemma ClaimRelyTrans(w: World, w': World, w'': World)
    requires NamesInv(w) && ClaimRely(w, w') && ClaimRely(w', w'')
    ensures ClaimRely(w, w'')
  {
  }

  lemma PodsRely(w: World, a: Act)
    requires Enabled(w, a) && ActorOf(a) != Claims && NamesInv(w)
    ensures var e := PodEdit(w, a);
            e.Put? ==>
              && e.value.rv == w.rv + 1
              && (if e.name in w.pods then
                    && e.value.tenant == w.pods[e.name].tenant && e.value.workload == w.pods[e.name].workload
                    && (Terminated(w.pods[e.name]) ==> Terminated(e.value))
                    && (w.pods[e.name].status == Acquired ==> e.value.status == Acquired)
                  else e.name !in w.used && e.value.tenant == None)
    ensures var f := ClaimEdit(w, a); f.Put? ==> f.value.rv == w.rv + 1
    ensures !SecretEdit(w, a).Put?
  {
  }

  lemma ClaimRelyStep(w: World, a: Act)
    requires Enabled(w, a) && ActorOf(a) != Claims && NamesInv(w)
    ensures ClaimRely(w, Apply(w, a))
  {
    PodsRely(w, a);
    var w' := Apply(w, a);
    assert w'.turn == w.turn && w'.snaps == w.snaps && w'.injected == w.injected;
    assert w'.pods == Edited(w.pods, PodEdit(w, a)) && w'.claims == Edited(w.claims, ClaimEdit(w, a));
    assert w'.secrets == Edited(w.secrets, SecretEdit(w, a));
  }

  /** No act of this actor among the acts from i to j. */
  ghost predicate OnlyOthers(acts: seq<Act>, i: nat, j: nat, me: Actor)
    requires j <= |acts|
  {
    forall m :: i <= m < j ==> ActorOf(acts[m]) != me
  }

  /** The relation holds between any two moments of a run between which the claim controller is idle. */
  lemma {:induction false} ClaimRelyRun(init: World, acts: seq<Act>, i: nat, j: nat)
    requires Inv(init) && Legal(init, acts) && i <= j <= |acts| && OnlyOthers(acts, i, j, Claims)
    ensures ClaimRely(At(init, acts, i), At(init, acts, j))
    decreases j - i
  {
    hide Enabled, Apply, ClaimRely, Legal;
    if i == j {
      ClaimRelyRefl(At(init, acts, i));
    } else {
      ClaimRelyRun(init, acts, i, j - 1);
      AtInv(init, acts, i);
      AtInv(init, acts, j - 1);
      AtStep(init, acts, j - 1);
      ClaimRelyStep(At(init, acts, j - 1), acts[j - 1]);
      ClaimRelyTrans(At(init, acts, i), At(init, acts, j - 1), At(init, acts, j));
    }
  }

  // ---- Seen by the pool controller ----------------------------------------------------

  /** Others never add a pod to a pool nor turn one back to warming. */
  ghost predicate PoolRely(w: World, w': World) {
    && w'.pools == w.pools && w.rv <= w'.rv && w.used <= w'.used
    && (forall p :: p in w'.pods ==>
          if p in w.pods then
            && w'.pods[p].workload == w.pods[p].workload
            && (w'.pods[p].status == w.pods[p].status || (w.pods[p].status == Ready && w'.pods[p].status == Acquired))
            && (w'.pods[p] == w.pods[p] || w'.pods[p].rv > w.rv)
          else p !in w.used && w'.pods[p].status == NoPool && w'.pods[p].rv > w.rv)
  }

  /** What one act of others may do to a pod, as far as a pool is concerned. */
  ghost predicate PoolEditOk(w: World, e: Edit<Pod>) {
    e.Put? ==>
      && e.value.rv == w.rv + 1
      && (if e.name in w.pods then
            && e.value.workload == w.pods[e.name].workload
            && (e.value.status == w.pods[e.name].status
                || (w.pods[e.name].status == Ready && e.value.status == Acquired))
          else e.name !in w.used && e.value.status == NoPool)
  }

  lemma PoolEdits(w: World, a: Act)
    requires Enabled(w, a) && ActorOf(a) != Pools && NamesInv(w)
    ensures PoolEditOk(w, PodEdit(w, a)) && w.used <= Apply(w, a).used
  {
    hide MayWrite, MustSave, Ending, ClaimEdit, SecretEdit, SnapsAfter, TurnAfter, DisksAfter, InjectedAfter;
  }

  lemma PoolPutOk(w: World, w': World, e: Edit<Pod>)
    requires NamesInv(w) && PoolEditOk(w, e) && w'.pods == Edited(w.pods, e)
    requires w'.pools == w.pools && w'.rv == w.rv + 1 && w.used <= w'.used
    ensures PoolRely(w, w')
  {
  }

  lemma PoolRelyStep(w: World, a: Act)
    requires Enabled(w, a) && ActorOf(a) != Pools && NamesInv(w)
    ensures PoolRely(w, Apply(w, a))
  {
    PoolEdits(w, a);
    hide Enabled, NamesInv, PoolEditOk, PoolRely, Edited, PodEdit, ClaimEdit, SecretEdit;
    hide SnapsAfter, TurnAfter, DisksAfter, InjectedAfter, UsedAfter;
    PoolPutOk(w, Apply(w, a), PodEdit(w, a));
  }

  lemma PoolRelyRefl(w: World)
    ensures PoolRely(w, w)
  {
  }

  lemma PoolRelyTrans(w: World, w': World, w'': World)
    requires NamesInv(w) && PoolRely(w, w') && PoolRely(w', w'')
    ensures PoolRely(w, w'')
  {
  }

  lemma {:induction false} PoolRelyRun(init: World, acts: seq<Act>, i: nat, j: nat)
    requires Inv(init) && Legal(init, acts) && i <= j <= |acts| && OnlyOthers(acts, i, j, Pools)
    ensures PoolRely(At(init, acts, i), At(init, acts, j))
    decreases j - i
  {
    hide Enabled, Apply, PoolRely, Legal;
    if i == j {
      PoolRelyRefl(At(init, acts, i));
    } else {
      PoolRelyRun(init, acts, i, j - 1);
      AtInv(init, acts, i);
      AtInv(init, acts, j - 1);
      AtStep(init, acts, j - 1);
      PoolRelyStep(At(init, acts, j - 1), acts[j - 1]);
      PoolRelyTrans(At(init, acts, i), At(init, acts, j - 1), At(init, acts, j));
    }
  }
}
