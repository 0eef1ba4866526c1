/** Theorems about whole runs of the operator: every interleaving of the claim
    controller, the pool controller and the rest of the cluster. */
module ClusterRuns {
  import opened Wrappers
  import opened Cluster
  import opened ClusterSafety

  /** The world after the first n acts of a run. */
  ghost function At(init: World, acts: seq<Act>, n: nat): World
    requires Legal(init, acts) && n <= |acts|
  {
    LegalPrefix(init, acts, n);
    Exec(init, acts[..n])
  }

  lemma AtStep(init: World, acts: seq<Act>, i: nat)
    requires Legal(init, acts) && i < |acts|
    ensures Enabled(At(init, acts, i), acts[i])
    ensures At(init, acts, i + 1) == Apply(At(init, acts, i), acts[i])
  {
    StepAt(init, acts, i);
  }

  lemma AtInv(init: World, acts: seq<Act>, i: nat)
    requires Inv(init) && Legal(init, acts) && i <= |acts|
    ensures Inv(At(init, acts, i))
  {
    LegalPrefix(init, acts, i);
    RunInv(init, acts[..i]);
  }

  // ---- Pods -------------------------------------------------------------------

  function StatusRank(s: PoolStatus): nat {
    match s
    case NoPool => 0
    case Warming => 0
    case Ready => 1
    case Acquired => 2
  }

  /** How a pod's labels may differ at two moments of a run. */
  ghost predicate LaterLabels(p: Pod, q: Pod) {
    && p.workload == q.workload
    && (p.tenant.Some? ==> q.tenant == p.tenant)
    && StatusRank(p.status) <= StatusRank(q.status)
    && (p.status == NoPool <==> q.status == NoPool)
    && (q.tenant == None <==> q.status in {Warming, Ready})
  }

  /** In every interleaving a pod's status only moves warming -> ready -> acquired, it has no
      tenant before it is acquired, and its tenant never changes; a removed pod stays removed. */
  lemma {:induction false} PodIsBoundOnce(init: World, acts: seq<Act>, i: nat, j: nat, p: string)
    requires Inv(init) && Legal(init, acts) && i <= j <= |acts|
    requires p in At(init, acts, i).used && p in At(init, acts, j).pods
    ensures p in At(init, acts, i).pods
    ensures LaterLabels(At(init, acts, i).pods[p], At(init, acts, j).pods[p])
    decreases j - i
  {
    if i < j {
      AtMoves(init, acts, i);
      PodIsBoundOnce(init, acts, i + 1, j, p);
      LabelsChain(At(init, acts, i), At(init, acts, i + 1), At(init, acts, j), p);
    } else {
      AtInv(init, acts, i);
    }
  }

  lemma AtMoves(init: World, acts: seq<Act>, i: nat)
    requires Inv(init) && Legal(init, acts) && i < |acts|
    ensures PodsMove(At(init, acts, i), At(init, acts, i + 1)) && NamesInv(At(init, acts, i))
  {
    AtInv(init, acts, i);
    AtStep(init, acts, i);
    StepMoves(At(init, acts, i), acts[i]);
  }

  lemma LabelsChain(w: World, w': World, w'': World, p: string)
    requires NamesInv(w) && PodsMove(w, w') && p in w.used && p in w'.pods && p in w''.pods
    requires LaterLabels(w'.pods[p], w''.pods[p])
    ensures p in w.pods && LaterLabels(w.pods[p], w''.pods[p])
  {
  }

  /** So a pod is never bound to two tenants, in any run, at any two moments. */
  lemma NoPodServesTwoTenants(init: World, acts: seq<Act>, i: nat, j: nat, p: string, k: Key, k': Key)
    requires Inv(init) && Legal(init, acts) && i <= j <= |acts|
    requires p in TenantPods(At(init, acts, i), k) && p in TenantPods(At(init, acts, j), k')
    ensures k == k'
  {
    AtInv(init, acts, i);
    PodIsBoundOnce(init, acts, i, j, p);
    assert k == Key(k'.tenant, k'.workload);
  }

  /** In every run there is at most one pod per tenant and workload, however many claims ask for it. */
  lemma AtMostOneTenantPod(init: World, acts: seq<Act>, k: Key)
    requires Inv(init) && Legal(init, acts)
    ensures |TenantPods(Exec(init, acts), k)| <= 1
  {
    RunInv(init, acts);
    var w := Exec(init, acts);
    if TenantPods(w, k) != {} {
      var p :| p in TenantPods(w, k);
      assert TenantPods(w, k) == {p};
    }
  }

  /** In every run and at every moment each pool keeps to its size and its fill concurrency. */
  lemma PoolStaysWithinLimits(init: World, acts: seq<Act>, wl: string)
    requires Init(init) && Legal(init, acts) && wl in init.pools
    ensures |PoolPods(Exec(init, acts), wl)| <= init.pools[wl].size
    ensures |WarmingPods(Exec(init, acts), wl)| <= init.pools[wl].cap
  {
    InitInv(init);
    RunInv(init, acts);
    PoolsNeverChange(init, acts);
  }

  lemma {:induction false} PoolsNeverChange(init: World, acts: seq<Act>)
    requires Legal(init, acts)
    ensures Exec(init, acts).pools == init.pools
    decreases |acts|
  {
    if acts != [] {
      PoolsNeverChange(init, acts[..|acts| - 1]);
    }
  }

  // ---- Claims -------------------------------------------------------------------

  /** In every reachable state an Active claim has the finalizer, a claim time, a host, and an
      instance that, while it exists, is the one pod carrying the claim's labels. */
  lemma ActiveClaimIsServed(init: World, acts: seq<Act>, c: string)
    requires Inv(init) && Legal(init, acts)
    requires var w := Exec(init, acts); c in w.claims && w.claims[c].status.phase == Active
    ensures var claim := Exec(init, acts).claims[c];
            claim.finalizer && claim.status.claimedAt.Some?
            && claim.status.endpoint.Some? && claim.status.endpoint.value.host != ""
            && claim.status.instance.Some?
    ensures var w := Exec(init, acts); var claim := w.claims[c];
            claim.status.instance.value in w.pods ==> TenantPods(w, claim.key) == {claim.status.instance.value}
  {
    RunInv(init, acts);
    var w := Exec(init, acts);
    var claim := w.claims[c];
    assert ClaimOk(w, claim);
    var p := claim.status.instance.value;
    if p in w.pods {
      assert p in TenantPods(w, claim.key);
    }
  }

  /** A claim that exists before and after a step keeps its key and moves its phase only as
      the lifecycle allows; Released and ReleaseFailed are left only by deletion. */
  lemma PhasesFollowTheLifecycle(init: World, acts: seq<Act>, i: nat, c: string)
    requires Inv(init) && Legal(init, acts) && i < |acts|
    requires c in At(init, acts, i).claims && c in At(init, acts, i + 1).claims
    ensures var before, after := At(init, acts, i).claims[c], At(init, acts, i + 1).claims[c];
            after.key == before.key && PhaseMove(before.status.phase, after.status.phase)
  {
    AtInv(init, acts, i);
    AtStep(init, acts, i);
    ClaimEditIsOk(At(init, acts, i), acts[i]);
  }

  /** Why a claim may leave Active: its pod is gone, or its idle timeout is over, counted from the last activity
      or, if none was noted, from the claim time; in the second case, if it becomes Released, its tenant has no
      pod left and its token is revoked. */
  ghost predicate DueToLeave(w: World, c: string, after: Status)
    requires c in w.claims
  {
    var claim := w.claims[c];
    || (after.phase == Released && after.detail == PodGone
        && claim.status.instance.Some? && claim.status.instance.value !in w.pods)
    || (&& after.phase in {Released, ReleaseFailed}
        && w.turn.Some? && |w.turn.value.views| > 0 && w.turn.value.views[0].Found?
        && w.turn.value.views[0].wl.timeout > 0
        && (match claim.lastActivity
            case Some(t) => w.now - t >= w.turn.value.views[0].wl.timeout
            case None => && claim.status.claimedAt.Some?
                         && w.now - claim.status.claimedAt.value >= w.turn.value.views[0].wl.timeout)
        && (after.phase == Released ==> TenantPods(w, claim.key) == {} && c !in w.secrets))
  }

  lemma LeavingActive(w: World, a: Act, c: string)
    requires Enabled(w, a) && c in w.claims && w.claims[c].status.phase == Active
    requires var e := ClaimEdit(w, a); e.Put? && e.name == c && e.value.status.phase != Active
    ensures DueToLeave(w, c, ClaimEdit(w, a).value.status)
  {
    assert a.CStatus?;
  }

  lemma ActiveIsLeftOnlyWhenDue(init: World, acts: seq<Act>, i: nat, c: string)
    requires Legal(init, acts) && i < |acts|
    requires c in At(init, acts, i).claims && At(init, acts, i).claims[c].status.phase == Active
    requires c in At(init, acts, i + 1).claims && At(init, acts, i + 1).claims[c].status.phase != Active
    ensures DueToLeave(At(init, acts, i), c, At(init, acts, i + 1).claims[c].status)
  {
    AtStep(init, acts, i);
    LeavingActive(At(init, acts, i), acts[i], c);
  }
}
