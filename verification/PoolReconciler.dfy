/** The pool controller: relabel warm pods that have become ready, then fill the pool up to its size,
    never warming more than the cap at once. */
module PoolReconcilers {
  import opened Wrappers
  import opened Cluster
  import opened ClusterSafety
  import opened Interference
  import opened ApiServers
  import opened ClaimPlan

  datatype PoolPhase = Unreported | Healthy | Degraded | Invalid

  datatype PoolState = PoolState(ready: int, warming: int, phase: PoolPhase)

  datatype Pool = Pool(workload: string, size: int, maxFill: Option<int>,
                       finalizer: bool, deleting: bool, status: PoolState)

  const DEFAULT_MAX_FILL := 2

  function Cap(pool: Pool): int {
    if pool.maxFill.Some? then pool.maxFill.value else DEFAULT_MAX_FILL
  }

  /** isPodReady */
  predicate IsReady(p: Pod) {
    p.phase == PodRunning && p.containersReady
  }

  /** The relabel loop turns this pod from warming to ready. */
  predicate Ripe(p: Pod) { p.status == Warming && IsReady(p) }

  // ---- The list a pass works on -----------------------------------------------------

  ghost function Names(list: seq<PodRef>): set<string> {
    set r | r in list :: r.name
  }

  /** Pods of the list that are still warming once the first i entries have been handled. */
  ghost function StillWarming(list: seq<PodRef>, i: nat): set<string> {
    set j | 0 <= j < |list| && list[j].pod.status == Warming && (j >= i || !IsReady(list[j].pod)) :: list[j].name
  }

  /** The loop relabels exactly the listed pods that are warming and run with all their containers ready. */
  lemma {:induction false} RelabelsIff(list: seq<PodRef>, p: string)
    ensures PReady(p) in Relabels(list)
            <==> exists j :: && 0 <= j < |list| && list[j].name == p && list[j].pod.status == Warming
                             && list[j].pod.phase == PodRunning && list[j].pod.containersReady
    ensures forall a :: a in Relabels(list) ==> a.PReady?
  {
    if list != [] {
      var before, last := list[..|list| - 1], list[|list| - 1];
      RelabelsIff(before, p);
      assert forall j :: 0 <= j < |before| ==> list[j] == before[j];
    }
  }

  /** The listed pods that are warming and do not run with all their containers ready. */
  ghost function Slow(list: seq<PodRef>): set<int> {
    set j | 0 <= j < |list| && list[j].pod.status == Warming
            && !(list[j].pod.phase == PodRunning && list[j].pod.containersReady)
  }

  /** And it counts as warming exactly the others that are warming. */
  lemma {:induction false} UnripeCounts(list: seq<PodRef>)
    ensures Unripe(list) == |Slow(list)|
  {
    if list == [] {
      assert Slow(list) == {};
    } else {
      UnripeCounts(list[..|list| - 1]);
      SlowStep(list);
      hide Slow;
    }
  }

  lemma SlowStep(list: seq<PodRef>)
    requires list != []
    ensures var n := |list| - 1; var last := list[n].pod;
            && n !in Slow(list[..n])
            && Slow(list) == Slow(list[..n])
                             + if last.status == Warming && !IsReady(last) then {n} else {}
  {
    var n := |list| - 1;
    assert forall j :: 0 <= j < n ==> list[..n][j] == list[j];
  }

  /** How many pods of the list stay warming: the count the loop leaves in warmingCount. */
  function Unripe(list: seq<PodRef>): nat {
    if list == [] then 0
    else Unripe(list[..|list| - 1])
         + if list[|list| - 1].pod.status == Warming && !IsReady(list[|list| - 1].pod) then 1 else 0
  }

  /** The relabels of a pass. */
  function Relabels(list: seq<PodRef>): seq<Act> {
    if list == [] then []
    else Relabels(list[..|list| - 1])
         + if Ripe(list[|list| - 1].pod) then [PReady(list[|list| - 1].name)] else []
  }

  /** The creations of a pass. */
  function Creates(made: seq<string>, pool: Pool, port: int): seq<Act> {
    if made == [] then []
    else Creates(made[..|made| - 1], pool, port) + [PCreate(made[|made| - 1], pool.workload, port)]
  }

  ghost predicate Distinct(list: seq<PodRef>) {
    forall i, j :: 0 <= i < j < |list| ==> list[i].name != list[j].name
  }

  /** The list is what a List by workload label, filtered for warming and ready, returns. */
  ghost predicate Lists(w: World, wl: string, list: seq<PodRef>) {
    && Distinct(list) && Names(list) == PoolPods(w, wl)
    && (forall r :: r in list ==> r.name in w.pods && w.pods[r.name] == r.pod)
  }

  lemma StillWarmingSnoc(list: seq<PodRef>, last: PodRef)
    ensures StillWarming(list + [last], |list| + 1)
            == StillWarming(list, |list|) + if last.pod.status == Warming && !IsReady(last.pod) then {last.name} else {}
  {
    var more := list + [last];
    forall n | n in StillWarming(list, |list|)
      ensures n in StillWarming(more, |more|)
    {
      var j :| 0 <= j < |list| && list[j].name == n && list[j].pod.status == Warming && !IsReady(list[j].pod);
      assert more[j] == list[j];
    }
    if last.pod.status == Warming && !IsReady(last.pod) {
      assert more[|list|] == last;
    }
  }

  lemma {:induction false} WarmingCard(list: seq<PodRef>)
    ensures |StillWarming(list, |list|)| <= Unripe(list)
    ensures Distinct(list) ==> |StillWarming(list, |list|)| == Unripe(list)
  {
    if list == [] {
      assert StillWarming(list, |list|) == {};
    } else {
      var before, last := list[..|list| - 1], list[|list| - 1];
      WarmingCard(before);
      StillWarmingSnoc(before, last);
      assert before + [last] == list;
      if Distinct(list) {
        LastIsNew(list);
      }
      hide StillWarming, Distinct, IsReady;
    }
  }

  lemma LastIsNew(list: seq<PodRef>)
    requires list != [] && Distinct(list)
    ensures var before, last := list[..|list| - 1], list[|list| - 1];
            Distinct(before) && last.name !in Names(before) && last.name !in StillWarming(before, |before|)
  {
    var before, last := list[..|list| - 1], list[|list| - 1];
    assert forall j :: 0 <= j < |before| ==> before[j] == list[j] && list[j].name != last.name;
  }

  lemma {:induction false} NamesCard(list: seq<PodRef>)
    ensures |Names(list)| <= |list|
    ensures Distinct(list) ==> |Names(list)| == |list|
  {
    if list == [] {
      assert Names(list) == {};
    } else {
      var before, last := list[..|list| - 1], list[|list| - 1];
      NamesCard(before);
      assert list == before + [last];
      assert Names(list) == Names(before) + {last.name};
      if Distinct(list) {
        LastIsNew(list);
      }
    }
  }

  // ---- What the pass may rely on ------------------------------------------------------

  /** Whatever others do, the pool holds no pod but those listed and those this pass made, no pod is
      warming but those not yet relabelled and those made, and copies not yet handled are as read. */
  ghost predicate Tracks(w: World, wl: string, list: seq<PodRef>, i: nat, made: set<string>) {
    && i <= |list|
    && PoolPods(w, wl) <= Names(list) + made
    && WarmingPods(w, wl) <= StillWarming(list, i) + made
    && (forall j :: i <= j < |list| ==> KnownPod(w, list[j].name, list[j].pod))
  }

  lemma ListTracks(w: World, wl: string, list: seq<PodRef>)
    requires Lists(w, wl, list) && NamesInv(w)
    ensures Tracks(w, wl, list, 0, {})
  {
    forall p | p in WarmingPods(w, wl)
      ensures p in StillWarming(list, 0)
    {
      assert p in PoolPods(w, wl);
      assert p in Names(list);
      var r :| r in list && r.name == p;
      var j :| 0 <= j < |list| && list[j] == r;
    }
  }

  lemma RelyTracks(w: World, w': World, wl: string, list: seq<PodRef>, i: nat, made: set<string>)
    requires PoolRely(w, w') && Tracks(w, wl, list, i, made)
    ensures Tracks(w', wl, list, i, made)
  {
    forall p | p in PoolPods(w', wl)
      ensures p in PoolPods(w, wl)
    {
    }
    forall p | p in WarmingPods(w', wl)
      ensures p in WarmingPods(w, wl)
    {
    }
    forall j | i <= j < |list|
      ensures KnownPod(w', list[j].name, list[j].pod)
    {
      assert KnownPod(w, list[j].name, list[j].pod);
    }
  }

  lemma SkipTracks(w: World, wl: string, list: seq<PodRef>, i: nat, made: set<string>)
    requires i < |list| && Tracks(w, wl, list, i, made) && !Ripe(list[i].pod)
    ensures Tracks(w, wl, list, i + 1, made)
  {
    assert StillWarming(list, i) <= StillWarming(list, i + 1);
  }

  /** The listed pod, unchanged but for its label, is ready now. */
  ghost predicate RelabelledFrom(w: World, r: PodRef) {
    r.name in w.pods && w.pods[r.name] == r.pod.(status := Ready, rv := w.rv)
  }

  lemma ReadyTracks(w: World, wl: string, list: seq<PodRef>, i: nat)
    requires i < |list| && Tracks(w, wl, list, i, {}) && Distinct(list) && Ripe(list[i].pod)
    requires list[i].name in w.pods && w.pods[list[i].name].rv == list[i].pod.rv
    ensures Enabled(w, PReady(list[i].name)) && RelabelledFrom(Apply(w, PReady(list[i].name)), list[i])
    ensures Tracks(Apply(w, PReady(list[i].name)), wl, list, i + 1, {})
  {
    var p := list[i].name;
    assert KnownPod(w, p, list[i].pod);
    var w' := Apply(w, PReady(p));
    assert w'.pods == w.pods[p := w.pods[p].(status := Ready, rv := w.rv + 1)] && w'.used == w.used;
    assert StillWarming(list, i) <= StillWarming(list, i + 1) + {p};
    forall q | q in PoolPods(w', wl)
      ensures q in PoolPods(w, wl)
    {
    }
    forall q | q in WarmingPods(w', wl)
      ensures q in WarmingPods(w, wl) && q != p
    {
    }
    forall j | i + 1 <= j < |list|
      ensures KnownPod(w', list[j].name, list[j].pod)
    {
      assert KnownPod(w, list[j].name, list[j].pod) && list[j].name != p;
    }
  }

  /** There is room for one more: neither the size nor the cap can be reached by what is listed and made. */
  lemma CreateAllowed(w: World, wl: string, list: seq<PodRef>, made: set<string>, p: string, port: int)
    requires Tracks(w, wl, list, |list|, made) && p !in w.used && wl in w.pools
    requires |list| + |made| < w.pools[wl].size && Unripe(list) + |made| < w.pools[wl].cap
    ensures Enabled(w, PCreate(p, wl, port))
  {
    NamesCard(list);
    WarmingCard(list);
    CardLe(PoolPods(w, wl), Names(list) + made);
    CardLe(WarmingPods(w, wl), StillWarming(list, |list|) + made);
  }

  lemma CreateTracks(w: World, wl: string, list: seq<PodRef>, made: set<string>, p: string, port: int)
    requires Tracks(w, wl, list, |list|, made) && Enabled(w, PCreate(p, wl, port))
    ensures Tracks(Apply(w, PCreate(p, wl, port)), wl, list, |list|, made + {p})
  {
    var w' := Apply(w, PCreate(p, wl, port));
    assert w'.pods == w.pods[p := Pod(wl, None, Warming, PodPending, false, "", port, w.rv + 1)];
    assert PoolPods(w', wl) <= PoolPods(w, wl) + {p};
    assert WarmingPods(w', wl) <= WarmingPods(w, wl) + {p};
  }

  // ---- What the pass does when nobody else acts --------------------------------------------

  /** The names of the pods that the loop has relabelled among the first i entries. */
  ghost function Turned(list: seq<PodRef>, i: nat): set<string>
    requires i <= |list|
  {
    set j | 0 <= j < i && Ripe(list[j].pod) :: list[j].name
  }

  /** Since it listed these pods in the first world the pass has turned the first i entries and made some pods, and
      nothing else has happened to any pod. */
  ghost predicate Exact(was: World, w: World, wl: string, list: seq<PodRef>, i: nat, made: set<string>) {
    && i <= |list| && Lists(was, wl, list)
    && w.pods.Keys == was.pods.Keys + made && made !! was.pods.Keys
    && (forall p :: p in was.pods ==>
          w.pods[p] == if p in Turned(list, i) then was.pods[p].(status := Ready, rv := w.pods[p].rv) else was.pods[p])
    && (forall p :: p in made ==> w.pods[p].workload == wl && w.pods[p].status == Warming && w.pods[p].tenant == None)
  }

  lemma ExactList(w: World, wl: string, list: seq<PodRef>)
    requires Lists(w, wl, list)
    ensures Exact(w, w, wl, list, 0, {})
  {
    hide Lists;
  }

  /** An entry not yet handled is as it was listed. */
  lemma ExactAt(was: World, w: World, wl: string, list: seq<PodRef>, i: nat, made: set<string>)
    requires Exact(was, w, wl, list, i, made) && i < |list|
    ensures list[i].name in was.pods && list[i].name in w.pods && list[i].name !in Turned(list, i)
    ensures w.pods[list[i].name] == list[i].pod == was.pods[list[i].name]
  {
    assert list[i] in list;
  }

  lemma ExactSkip(was: World, w: World, wl: string, list: seq<PodRef>, i: nat)
    requires i < |list| && Exact(was, w, wl, list, i, {}) && !Ripe(list[i].pod)
    ensures Exact(was, w, wl, list, i + 1, {})
  {
    assert Turned(list, i) == Turned(list, i + 1);
    hide Lists, Turned;
  }

  lemma ReadyEffect(w: World, p: string)
    requires Enabled(w, PReady(p))
    ensures p in w.pods
    ensures Apply(w, PReady(p)).pods == w.pods[p := w.pods[p].(status := Ready, rv := w.rv + 1)]
  {
  }

  lemma ExactReady(was: World, w: World, wl: string, list: seq<PodRef>, i: nat)
    requires i < |list| && Exact(was, w, wl, list, i, {}) && Ripe(list[i].pod) && Enabled(w, PReady(list[i].name))
    ensures Exact(was, Apply(w, PReady(list[i].name)), wl, list, i + 1, {})
  {
    hide Enabled, Apply;
    ReadyEffect(w, list[i].name);
    ExactAt(was, w, wl, list, i, {});
    assert Turned(list, i + 1) == Turned(list, i) + {list[i].name};
    hide Lists, Turned;
  }

  lemma CreateEffect(w: World, wl: string, p: string, port: int)
    requires Enabled(w, PCreate(p, wl, port))
    ensures Apply(w, PCreate(p, wl, port)).pods
            == w.pods[p := Pod(wl, None, Warming, PodPending, false, "", port, w.rv + 1)]
  {
  }

  lemma ExactCreate(was: World, w: World, wl: string, list: seq<PodRef>, made: set<string>, p: string, port: int)
    requires Exact(was, w, wl, list, |list|, made) && Enabled(w, PCreate(p, wl, port)) && p !in w.pods
    ensures Exact(was, Apply(w, PCreate(p, wl, port)), wl, list, |list|, made + {p})
  {
    hide Enabled, Apply;
    CreateEffect(w, wl, p, port);
    hide Lists, Turned;
  }

  lemma NothingCreated(pool: Pool, port: int)
    ensures Creates([], pool, port) == []
  {
  }

  lemma NothingHandled(list: seq<PodRef>)
    ensures Relabels(list[..0]) == [] && Unripe(list[..0]) == 0
  {
  }

  lemma SnocRelabels(list: seq<PodRef>, i: nat)
    requires i < |list|
    ensures Relabels(list[..i + 1]) == Relabels(list[..i]) + if Ripe(list[i].pod) then [PReady(list[i].name)] else []
    ensures Unripe(list[..i + 1])
            == Unripe(list[..i]) + if list[i].pod.status == Warming && !Ripe(list[i].pod) then 1 else 0
  {
    assert list[..i + 1][..i] == list[..i];
  }

  lemma SnocCreates(made: seq<string>, p: string, pool: Pool, port: int)
    ensures Creates(made + [p], pool, port) == Creates(made, pool, port) + [PCreate(p, pool.workload, port)]
  {
    assert (made + [p])[..|made|] == made;
  }

  /** How many pods a completed pass creates. */
  function FillCount(size: int, cap: int, listed: nat, unripe: nat): nat {
    var room := if size - listed < cap - unripe then size - listed else cap - unripe;
    if room > 0 then room else 0
  }

  /** The first part of a list: rest is what has not been copied yet. */
  ghost predicate Filtering(w: World, wl: string, all: seq<PodRef>, rest: set<string>) {
    && Distinct(all) && rest !! Names(all) && Names(all) + rest == PoolPods(w, wl)
    && (forall r :: r in all ==> r.name in w.pods && w.pods[r.name] == r.pod)
  }

  lemma FilterOne(w: World, wl: string, all: seq<PodRef>, rest: set<string>, p: string)
    requires Filtering(w, wl, all, rest) && p in rest && p in w.pods
    ensures Filtering(w, wl, all + [PodRef(p, w.pods[p])], rest - {p})
  {
    assert Names(all + [PodRef(p, w.pods[p])]) == Names(all) + {p};
    assert forall j :: 0 <= j < |all| ==> all[j].name in Names(all);
  }

  /** The List with its filter: pool pods of the workload, in any order. */
  method Filter(w: World, wl: string) returns (all: seq<PodRef>)
    ensures Lists(w, wl, all)
  {
    all := [];
    var rest := PoolPods(w, wl);
    while rest != {}
      invariant Filtering(w, wl, all, rest)
      decreases |rest|
    {
      var p :| p in rest;
      assert p in PoolPods(w, wl);
      FilterOne(w, wl, all, rest, p);
      all, rest := all + [PodRef(p, w.pods[p])], rest - {p};
    }
  }

  /** Pods that carry the workload label and any pool-status label, acquired ones included. */
  function Labelled(w: World, wl: string): set<string> {
    set p | p in w.pods && w.pods[p].workload == wl && w.pods[p].status != NoPool
  }

  /** No pod of the workload is warming, ready or acquired. */
  ghost predicate NoneWithPoolLabel(w: World, wl: string) {
    forall p :: p in w.pods && w.pods[p].workload == wl ==> w.pods[p].status !in {Warming, Ready, Acquired}
  }

  /** Of the pods exactly those of the workload with such a label have gone; the others are as they were. */
  ghost predicate OthersKept(w: World, w': World, wl: string) {
    && (forall p :: p in w'.pods
          <==> p in w.pods && !(w.pods[p].workload == wl && w.pods[p].status in {Warming, Ready, Acquired}))
    && (forall p :: p in w'.pods && p in w.pods ==> w'.pods[p] == w.pods[p])
  }

  ghost predicate GoneFor(w: World, names: set<string>) {
    names <= w.used && w.pods.Keys !! names
  }

  lemma GoneStays(w: World, w': World, names: set<string>)
    requires PoolRely(w, w') && GoneFor(w, names)
    ensures GoneFor(w', names)
  {
  }

  /** Others label no pod; they only relabel. */
  lemma LabelledShrinks(w: World, w': World, wl: string)
    requires PoolRely(w, w')
    ensures Labelled(w', wl) <= Labelled(w, wl)
  {
  }

  lemma NoneLabelled(w: World, wl: string, names: set<string>)
    requires GoneFor(w, names) && Labelled(w, wl) <= names
    ensures Labelled(w, wl) == {}
  {
    assert forall p :: p in Labelled(w, wl) ==> p in w.pods;
  }

  lemma LabelledIs(w: World, wl: string)
    ensures Labelled(w, wl) == {} <==> NoneWithPoolLabel(w, wl)
  {
    assert forall p :: p in Labelled(w, wl) ==> p in w.pods && w.pods[p].workload == wl;
    assert forall p :: p in w.pods && p !in Labelled(w, wl) && w.pods[p].workload == wl ==> w.pods[p].status == NoPool;
  }

  lemma RestKept(w: World, w': World, wl: string)
    requires w'.pods == w.pods - Labelled(w, wl)
    ensures OthersKept(w, w', wl)
  {
  }

  lemma NoneGone(w: World)
    ensures GoneFor(w, {})
  {
  }

  lemma RemovedPod(w: World, p: string)
    requires p in w.pods
    ensures Enabled(w, ERemovePod(p))
    ensures var w' := Apply(w, ERemovePod(p));
            w'.pods == w.pods - {p} && w'.used == w.used && w'.pools == w.pools
  {
  }

  predicate WorkloadUp(w: World, wl: string) {
    wl in w.workloads && w.workloads[wl].ready
  }

  predicate SameSpec(p: Pool, q: Pool) {
    q.workload == p.workload && q.size == p.size && q.maxFill == p.maxFill
  }

  /** What a completed pass that listed these pods and made so many leaves in the pool object. */
  ghost predicate Reported(p: Pool, q: Pool, listed: seq<PodRef>, handled: nat, made: nat) {
    && handled == |listed|
    && made == FillCount(p.size, Cap(p), |listed|, Unripe(listed))
    && q == p.(status := PoolState(|listed| - Unripe(listed), Unripe(listed) + made,
                                   if Unripe(listed) + made > 0 then Degraded else Healthy))
  }

  /** Healthy is only reported by a pass that leaves the pool full of ready pods. */
  lemma HealthyMeansFull(p: Pool, q: Pool, listed: seq<PodRef>, handled: nat, made: nat)
    requires Reported(p, q, listed, handled, made)
    ensures q.status.ready + q.status.warming == |listed| + made
    ensures Cap(p) >= 1 && q.status.phase == Healthy ==> q.status.ready >= p.size
  {
  }

  /** Pods that are warming and do not run with all their containers ready yet. */
  ghost function UnripePods(w: World, wl: string): set<string> {
    set p | p in w.pods && w.pods[p].workload == wl && w.pods[p].status == Warming
            && !(w.pods[p].phase == PodRunning && w.pods[p].containersReady)
  }

  ghost function PodsWith(w: World, wl: string, statuses: set<PoolStatus>): set<string> {
    set p | p in w.pods && w.pods[p].workload == wl && w.pods[p].status in statuses
  }

  /** What a completed pass does to the pods when nobody else acts: every warming pod of the workload that runs
      with all its containers ready is ready now, no other pod is touched, and only warming pods are added. */
  ghost predicate PodsPassed(w: World, w': World, wl: string) {
    && w.pods.Keys <= w'.pods.Keys
    && (forall p :: p in w.pods ==>
          w'.pods[p] == if w.pods[p].workload == wl && w.pods[p].status == Warming
                           && w.pods[p].phase == PodRunning && w.pods[p].containersReady then
                          w.pods[p].(status := Ready, rv := w'.pods[p].rv)
                        else w.pods[p])
    && (forall p :: p in w'.pods && p !in w.pods ==>
          w'.pods[p].workload == wl && w'.pods[p].status == Warming && w'.pods[p].tenant == None)
  }

  /** And it adds as many as the size of the pool and the cap on warming pods allow. */
  ghost predicate Passed(w: World, w': World, wl: string, size: int, cap: int) {
    && PodsPassed(w, w', wl)
    && var more, n, slow := |w'.pods.Keys - w.pods.Keys|, |PodsWith(w, wl, {Warming, Ready})|, |UnripePods(w, wl)|;
    && (more > 0 ==> n + more <= size && slow + more <= cap)
    && (n + more >= size || slow + more >= cap)
  }

  /** The status of the pool object says how many pods are ready and warming now. */
  ghost predicate Shown(w: World, wl: string, status: PoolState) {
    && status.ready == |PodsWith(w, wl, {Ready})|
    && status.warming == |PodsWith(w, wl, {Warming})|
    && status.phase == if PodsWith(w, wl, {Warming}) == {} then Healthy else Degraded
  }

  /** The pods of the list that stay warming are the slow ones. */
  lemma PoolShape(w: World, wl: string, list: seq<PodRef>)
    requires Lists(w, wl, list)
    ensures Distinct(list) && forall r :: r in list ==> r.pod.status in {Warming, Ready}
    ensures Names(list) == PoolPods(w, wl)
    ensures UnripePods(w, wl) == StillWarming(list, |list|)
    ensures PoolPods(w, wl) == PodsWith(w, wl, {Warming, Ready})
  {
    forall r | r in list
      ensures r.name in PoolPods(w, wl) && w.pods[r.name] == r.pod
    {
      assert r.name in Names(list);
    }
    forall p | p in UnripePods(w, wl)
      ensures p in StillWarming(list, |list|)
    {
      assert p in PoolPods(w, wl) && p in Names(list);
      var r :| r in list && r.name == p;
      var j :| 0 <= j < |list| && list[j] == r;
    }
  }

  /** The pods that the loop has relabelled in all are the ripe ones of the workload. */
  lemma TurnedAll(w: World, wl: string, list: seq<PodRef>)
    requires Lists(w, wl, list)
    ensures forall p :: p in w.pods ==>
              (p in Turned(list, |list|)
               <==> && w.pods[p].workload == wl && w.pods[p].status == Warming
                    && w.pods[p].phase == PodRunning && w.pods[p].containersReady)
  {
    forall p | p in w.pods
      ensures p in Turned(list, |list|)
              <==> && w.pods[p].workload == wl && w.pods[p].status == Warming
                   && w.pods[p].phase == PodRunning && w.pods[p].containersReady
    {
      if p in Turned(list, |list|) {
        var j :| 0 <= j < |list| && Ripe(list[j].pod) && list[j].name == p;
        assert list[j] in list && p in Names(list);
      }
      if w.pods[p].workload == wl && w.pods[p].status == Warming {
        assert p in PoolPods(w, wl) && p in Names(list);
        var r :| r in list && r.name == p;
        var j :| 0 <= j < |list| && list[j] == r;
      }
    }
  }

  lemma ExactPass(w: World, w': World, wl: string, list: seq<PodRef>, names: set<string>, size: int, cap: int)
    requires Lists(w, wl, list) && Exact(w, w', wl, list, |list|, names)
    requires |names| == FillCount(size, cap, |list|, Unripe(list))
    ensures Passed(w, w', wl, size, cap)
  {
    hide Exact, Lists, StillWarming, Names, PoolPods, PodsWith, UnripePods, Unripe, PodsPassed;
    PoolShape(w, wl, list);
    PassKept(w, w', wl, list, names);
    NamesCard(list);
    WarmingCard(list);
  }

  /** What became of every pod. */
  lemma PassKept(w: World, w': World, wl: string, list: seq<PodRef>, names: set<string>)
    requires Exact(w, w', wl, list, |list|, names) && Lists(w, wl, list)
    ensures w'.pods.Keys - w.pods.Keys == names && PodsPassed(w, w', wl)
  {
    TurnedAll(w, wl, list);
    hide Lists, Turned;
  }

  /** The pods of the pool after a pass, status by status. */
  lemma PassedSets(w: World, w': World, wl: string)
    requires PodsPassed(w, w', wl)
    ensures var made := w'.pods.Keys - w.pods.Keys;
            && PodsWith(w', wl, {Warming, Ready}) == PodsWith(w, wl, {Warming, Ready}) + made
            && PodsWith(w', wl, {Warming}) == UnripePods(w, wl) + made
            && PodsWith(w', wl, {Ready}) == PodsWith(w, wl, {Warming, Ready}) - UnripePods(w, wl)
  {
    forall p
      ensures p in PodsWith(w', wl, {Warming}) <==> p in UnripePods(w, wl) + (w'.pods.Keys - w.pods.Keys)
      ensures p in PodsWith(w', wl, {Ready}) <==> p in PodsWith(w, wl, {Warming, Ready}) - UnripePods(w, wl)
      ensures p in PodsWith(w', wl, {Warming, Ready})
              <==> p in PodsWith(w, wl, {Warming, Ready}) + (w'.pods.Keys - w.pods.Keys)
    {
      PassedOne(w, w', wl, p);
    }
    hide PodsWith, UnripePods, PodsPassed;
  }

  lemma PassedOne(w: World, w': World, wl: string, p: string)
    requires PodsPassed(w, w', wl)
    ensures p in PodsWith(w', wl, {Warming}) <==> p in UnripePods(w, wl) || (p in w'.pods && p !in w.pods)
    ensures p in PodsWith(w', wl, {Ready}) <==> p in PodsWith(w, wl, {Warming, Ready}) && p !in UnripePods(w, wl)
    ensures p in PodsWith(w', wl, {Warming, Ready})
            <==> p in PodsWith(w, wl, {Warming, Ready}) || (p in w'.pods && p !in w.pods)
  {
    if p in w.pods {
      assert p in w'.pods;
    }
  }

  lemma PoolPodsAre(w: World, wl: string)
    ensures PoolPods(w, wl) == PodsWith(w, wl, {Warming, Ready}) && UnripePods(w, wl) <= PoolPods(w, wl)
    ensures PoolPods(w, wl) <= w.pods.Keys
  {
  }

  /** The counts that a pass leaves. */
  lemma PassedCounts(w: World, w': World, wl: string, size: int, cap: int) returns (more: nat)
    requires Passed(w, w', wl, size, cap)
    ensures more == FillCount(size, cap, |PoolPods(w, wl)|, |UnripePods(w, wl)|)
    ensures PoolPods(w, wl) <= PoolPods(w', wl) && |PoolPods(w', wl)| == |PoolPods(w, wl)| + more
    ensures |PodsWith(w', wl, {Warming})| == |UnripePods(w, wl)| + more
    ensures |PodsWith(w', wl, {Ready})| == |PoolPods(w, wl)| - |UnripePods(w, wl)|
  {
    hide PoolPods, PodsWith, UnripePods, PodsPassed;
    PassedSets(w, w', wl);
    PoolPodsAre(w, wl);
    PoolPodsAre(w', wl);
    var made := w'.pods.Keys - w.pods.Keys;
    more := |made|;
    assert PoolPods(w, wl) !! made && UnripePods(w, wl) !! made;
  }

  /** What a completed pass reports is what the cluster holds after it. */
  lemma ReportIsShown(w: World, w': World, wl: string, list: seq<PodRef>, p: Pool, q: Pool, made: nat)
    requires Lists(w, wl, list) && Passed(w, w', wl, p.size, Cap(p)) && Reported(p, q, list, |list|, made)
    ensures Shown(w', wl, q.status)
  {
    var more := PassedCounts(w, w', wl, p.size, Cap(p));
    PoolShape(w, wl, list);
    NamesCard(list);
    WarmingCard(list);
    hide Lists, StillWarming, Names, PoolPods, PodsWith, UnripePods, Unripe, Passed;
    assert |PodsWith(w', wl, {Warming})| == 0 <==> PodsWith(w', wl, {Warming}) == {};
  }

  class PoolReconciler {
    const api: ApiServer
    /** The pool object: its spec does not change while the model runs. */
    var pool: Pool
    /** Is it still there? */
    var present: bool

    ghost predicate Valid()
      reads this, api
    {
      && api.Valid()
      && pool.workload in api.world.pools
      && api.world.pools[pool.workload] == PoolSpec(pool.size, Cap(pool))
    }

    ghost function Own(): seq<Act>
      reads this, api
    {
      By(api.acts, Pools)
    }

    constructor (api: ApiServer, pool: Pool)
      requires api.Valid() && pool.workload in api.world.pools
      requires api.world.pools[pool.workload] == PoolSpec(pool.size, Cap(pool))
      ensures Valid() && this.api == api && this.pool == pool && present
    {
      this.api, this.pool, present := api, pool, true;
    }

    /** Let the others run. */
    method Yield()
      requires Valid()
      modifies api
      ensures Valid() && PoolRely(old(api.world), api.world) && Own() == old(Own())
      ensures NamesInv(old(api.world)) && NamesInv(api.world)
      ensures api.calm ==> api.world == old(api.world)
    {
      hide Enabled, Apply, By, OnlyOthers, NamesInv;
      ghost var before := api.acts;
      api.Interfere(Pools);
      ghost var after := api.acts;
      PoolRelyRun(api.init, after, |before|, |after|);
      ByOthers(after, |before|, Pools);
      assert after[..|before|] == before && after[..|after|] == after;
      RunInv(api.init, before);
      RunInv(api.init, after);
    }

    /** Take an act of the pool controller. */
    method Take(a: Act)
      requires Valid() && Enabled(api.world, a) && ActorOf(a) == Pools
      modifies api
      ensures Valid() && api.world == Apply(old(api.world), a) && Own() == old(Own()) + [a]
    {
      ByOne(api.acts, a, Pools);
      api.Commit(a);
    }

    /** listPoolPods */
    method ListPoolPods() returns (list: Option<seq<PodRef>>)
      requires Valid()
      modifies api
      ensures Valid() && Own() == old(Own())
      ensures list.Some? ==> Lists(api.world, pool.workload, list.value)
      ensures list.Some? ==> Tracks(api.world, pool.workload, list.value, 0, {})
      ensures api.calm ==> list.Some? && api.world == old(api.world)
      ensures api.calm && list.Some? ==> Exact(api.world, api.world, pool.workload, list.value, 0, {})
    {
      hide Legal, Inv, Exec, By;
      Yield();
      var refused := api.Refused();
      if refused {
        list := None;
      } else {
        var all := Filter(api.world, pool.workload);
        ListTracks(api.world, pool.workload, all);
        ExactList(api.world, pool.workload, all);
        list := Some(all);
      }
    }

    /** One Update of the relabel loop: refused if the pod is gone or has changed since it was listed. */
    method RelabelOne(list: seq<PodRef>, i: nat, ghost was: World) returns (ok: bool)
      requires Valid() && Tracks(api.world, pool.workload, list, i, {}) && Distinct(list)
      requires i < |list| && Ripe(list[i].pod)
      requires api.calm ==> Exact(was, api.world, pool.workload, list, i, {})
      modifies api
      ensures Valid() && Own() == old(Own()) + if ok then [PReady(list[i].name)] else []
      ensures ok ==> Tracks(api.world, pool.workload, list, i + 1, {}) && RelabelledFrom(api.world, list[i])
      ensures api.calm ==> ok && Exact(was, api.world, pool.workload, list, i + 1, {})
    {
      hide Legal, Inv, Exec, By;
      Yield();
      RelyTracks(old(api.world), api.world, pool.workload, list, i, {});
      if api.calm {
        ExactAt(was, api.world, pool.workload, list, i, {});
      }
      var p := list[i].name;
      var refused := api.Refused();
      ok := !refused && p in api.world.pods && api.world.pods[p].rv == list[i].pod.rv;
      if ok {
        ReadyTracks(api.world, pool.workload, list, i);
        if api.calm {
          ExactReady(was, api.world, pool.workload, list, i);
        }
        Take(PReady(p));
      }
    }

    /** One round of the relabel loop. */
    method Handle(list: seq<PodRef>, i: nat, ghost was: World) returns (ok: bool)
      requires Valid() && Tracks(api.world, pool.workload, list, i, {}) && Distinct(list) && i < |list|
      requires api.calm ==> Exact(was, api.world, pool.workload, list, i, {})
      modifies api
      ensures Valid() && Own() == old(Own()) + if ok && Ripe(list[i].pod) then [PReady(list[i].name)] else []
      ensures !Ripe(list[i].pod) ==> ok
      ensures ok ==> Tracks(api.world, pool.workload, list, i + 1, {})
      ensures api.calm ==> ok && Exact(was, api.world, pool.workload, list, i + 1, {})
    {
      hide *;
      if Ripe(list[i].pod) {
        ok := RelabelOne(list, i, was);
      } else {
        ok := true;
        SkipTracks(api.world, pool.workload, list, i, {});
        if api.calm {
          ExactSkip(was, api.world, pool.workload, list, i);
        }
      }
    }

    /** The relabel loop.  It counts as warming exactly the listed pods it leaves warming. */
    method Relabel(list: seq<PodRef>, ghost was: World)
        returns (done: bool, warming: int, ready: int, ghost handled: nat)
      requires Valid() && Tracks(api.world, pool.workload, list, 0, {}) && Distinct(list)
      requires forall r :: r in list ==> r.pod.status in {Warming, Ready}
      requires api.calm ==> Exact(was, api.world, pool.workload, list, 0, {})
      modifies api
      ensures Valid() && handled <= |list| && Own() == old(Own()) + Relabels(list[..handled])
      ensures done ==> handled == |list| && warming == Unripe(list) && ready == |list| - Unripe(list)
      ensures done ==> Tracks(api.world, pool.workload, list, |list|, {})
      ensures api.calm ==> done && Exact(was, api.world, pool.workload, list, |list|, {})
    {
      hide *;
      done, warming, ready, handled := true, 0, 0, 0;
      NothingHandled(list);
      var i := 0;
      while i < |list| && done
        invariant Valid() && handled <= i <= |list|
        invariant Own() == old(Own()) + Relabels(list[..handled])
        invariant done ==> handled == i && warming == Unripe(list[..i]) && ready == i - Unripe(list[..i])
        invariant done ==> Tracks(api.world, pool.workload, list, i, {})
        invariant api.calm ==> done && Exact(was, api.world, pool.workload, list, i, {})
        decreases |list| - i
      {
        SnocRelabels(list, i);
        done := Handle(list, i, was);
        if Ripe(list[i].pod) || list[i].pod.status == Ready {
          ready := ready + 1;
        } else {
          warming := warming + 1;
        }
        handled := if done then i + 1 else handled;
        i := i + 1;
      }
      if done {
        assert list[..i] == list;
      }
    }

    // ---- Filling ---------------------------------------------------------------------

    /** One creation, under a new name. */
    method CreateOne(list: seq<PodRef>, ghost made: set<string>, port: int, ghost was: World)
        returns (name: Option<string>)
      requires Valid() && Tracks(api.world, pool.workload, list, |list|, made)
      requires |list| + |made| < pool.size && Unripe(list) + |made| < Cap(pool)
      requires api.calm ==> Exact(was, api.world, pool.workload, list, |list|, made)
      modifies api
      ensures Valid() && Own() == old(Own()) + if name.Some? then [PCreate(name.value, pool.workload, port)] else []
      ensures name.Some? ==> name.value !in old(api.world.used)
      ensures old(api.world.used) <= api.world.used && (name.Some? ==> name.value in api.world.used)
      ensures name.Some? ==> Tracks(api.world, pool.workload, list, |list|, made + {name.value})
      ensures api.calm ==> name.Some? && Exact(was, api.world, pool.workload, list, |list|, made + {name.value})
    {
      hide Legal, Inv, Exec, By;
      Yield();
      RelyTracks(old(api.world), api.world, pool.workload, list, |list|, made);
      var suffix := FreshSuffix(pool.workload + "-pool-", api.world.used);
      var drawn := pool.workload + "-pool-" + suffix;
      var refused := api.Refused();
      if refused {
        name := None;
      } else {
        name := Some(drawn);
        CreateAllowed(api.world, pool.workload, list, made, drawn, port);
        CreateTracks(api.world, pool.workload, list, made, drawn, port);
        if api.calm {
          assert drawn !in api.world.pods;
          ExactCreate(was, api.world, pool.workload, list, made, drawn, port);
        }
        Take(PCreate(drawn, pool.workload, port));
      }
    }

    /** Fill the gap.  Every creation counts as warming. */
    method Fill(list: seq<PodRef>, warming: int, port: int, ghost was: World)
        returns (done: bool, total: int, ghost made: seq<string>)
      requires Valid() && Tracks(api.world, pool.workload, list, |list|, {}) && warming == Unripe(list)
      requires api.calm ==> Exact(was, api.world, pool.workload, list, |list|, {})
      modifies api
      ensures Valid() && Own() == old(Own()) + Creates(made, pool, port) && total == warming + |made|
      ensures |made| <= FillCount(pool.size, Cap(pool), |list|, Unripe(list))
      ensures done ==> |made| == FillCount(pool.size, Cap(pool), |list|, Unripe(list))
      ensures api.calm ==>
                done && exists names: set<string> ::
                  |names| == |made| && Exact(was, api.world, pool.workload, list, |list|, names)
    {
      hide Tracks, Exact, Enabled, Apply, By, Legal, Inv, Exec, Creates, Unripe, Valid;
      done, total, made := true, warming, [];
      ghost var names: set<string> := {};
      NothingCreated(pool, port);
      var gap := pool.size - |list|;
      if gap > 0 {
        var canCreate := Cap(pool) - warming;
        if canCreate > gap {
          canCreate := gap;
        }
        done := BuildProxyConfig(list, was);
        var i := 0;
        while i < canCreate && done
          invariant 0 <= i && (i <= canCreate || i == 0) && Valid()
          invariant |made| <= i && |made| == |names| && names <= api.world.used && total == warming + |made|
          invariant Own() == old(Own()) + Creates(made, pool, port)
          invariant done ==> |made| == i && Tracks(api.world, pool.workload, list, |list|, names)
          invariant api.calm ==> done && Exact(was, api.world, pool.workload, list, |list|, names)
          decreases canCreate - i
        {
          var name := CreateOne(list, names, port, was);
          if name.Some? {
            SnocCreates(made, name.value, pool, port);
            made, names, total := made + [name.value], names + {name.value}, total + 1;
          } else {
            done := false;
          }
          i := i + 1;
        }
      }
    }

    /** BuildProxyConfig reads credentials; only its success matters here. */
    method BuildProxyConfig(list: seq<PodRef>, ghost was: World) returns (ok: bool)
      requires Valid() && Tracks(api.world, pool.workload, list, |list|, {})
      requires api.calm ==> Exact(was, api.world, pool.workload, list, |list|, {})
      modifies api
      ensures Valid() && Own() == old(Own()) && Tracks(api.world, pool.workload, list, |list|, {})
      ensures api.calm ==> ok && Exact(was, api.world, pool.workload, list, |list|, {})
    {
      hide Legal, Inv, Exec, By;
      Yield();
      RelyTracks(old(api.world), api.world, pool.workload, list, |list|, {});
      var refused := api.Refused();
      ok := !refused;
    }

    // ---- Deletion --------------------------------------------------------------------

    /** The List of deletePoolPods: every labelled pod, acquired ones too. */
    method ListLabelled() returns (names: Option<set<string>>)
      requires Valid()
      modifies api
      ensures Valid() && Own() == old(Own())
      ensures names.Some? ==> names.value == Labelled(api.world, pool.workload) && names.value <= api.world.used
      ensures api.calm ==> names.Some? && api.world == old(api.world)
    {
      hide Legal, Inv, Exec, By;
      Yield();
      var refused := api.Refused();
      names := if refused then None else Some(Labelled(api.world, pool.workload));
    }

    /** deletePoolPods */
    method DeletePoolPods() returns (done: bool, ghost listed: set<string>)
      requires Valid()
      modifies api
      ensures Valid() && Own() == old(Own())
      ensures done ==> GoneFor(api.world, listed) && Labelled(api.world, pool.workload) == {}
      ensures done ==> NoneWithPoolLabel(api.world, pool.workload)
      ensures api.calm ==> done && listed == Labelled(old(api.world), pool.workload)
                           && api.world.pods == old(api.world.pods) - listed
    {
      hide *;
      done, listed := false, {};
      var names := ListLabelled();
      if names.Some? {
        listed := names.value;
        done := DeleteAll(names.value);
        LabelledIs(api.world, pool.workload);
      }
    }

    method DeleteAll(names: set<string>) returns (done: bool)
      requires Valid() && names <= api.world.used && Labelled(api.world, pool.workload) <= names
      modifies api
      ensures Valid() && Own() == old(Own())
      ensures done ==> GoneFor(api.world, names) && Labelled(api.world, pool.workload) == {}
      ensures api.calm ==> done && api.world.pods == old(api.world.pods) - names
    {
      hide *;
      done := true;
      var rest := names;
      ghost var gone: set<string> := {};
      NoneGone(api.world);
      while rest != {} && done
        invariant Valid() && Own() == old(Own())
        invariant gone + rest == names && GoneFor(api.world, gone) && names <= api.world.used
        invariant Labelled(api.world, pool.workload) <= names
        invariant api.calm ==> done && api.world.pods == old(api.world.pods) - gone
        decreases |rest|, done
      {
        var p :| p in rest;
        done := DeleteOne(p, gone);
        if done {
          rest, gone := rest - {p}, gone + {p};
        }
      }
      if done {
        assert gone == names;
        NoneLabelled(api.world, pool.workload, names);
      }
    }

    /** Delete one pod; that it is already gone is no error. */
    method DeleteOne(p: string, ghost gone: set<string>) returns (ok: bool)
      requires Valid() && GoneFor(api.world, gone) && p in api.world.used
      modifies api
      ensures Valid() && Own() == old(Own()) && NamesInv(api.world) && old(api.world.used) <= api.world.used
      ensures ok ==> GoneFor(api.world, gone + {p})
      ensures GoneFor(api.world, gone)
      ensures Labelled(api.world, pool.workload) <= Labelled(old(api.world), pool.workload)
      ensures api.calm ==> ok && api.world.pods == old(api.world.pods) - {p}
    {
      hide Inv, NamesInv, Exec, Legal, By, Enabled, Apply;
      Yield();
      GoneStays(old(api.world), api.world, gone);
      LabelledShrinks(old(api.world), api.world, pool.workload);
      var refused := api.Refused();
      ok := !refused;
      if ok && p in api.world.pods {
        Remove(p);
      }
    }

    method Remove(p: string)
      requires Valid() && p in api.world.pods
      modifies api
      ensures Valid() && Own() == old(Own()) && NamesInv(api.world)
      ensures api.world.pods == old(api.world.pods) - {p} && api.world.used == old(api.world.used)
    {
      hide Inv, NamesInv, Exec, Legal, By;
      RemovedPod(api.world, p);
      ByOne(api.acts, ERemovePod(p), Pools);
      api.Commit(ERemovePod(p));
      api.NamesHold();
    }

    // ---- The whole pass --------------------------------------------------------------

    /** setPoolStatus */
    method SetPoolStatus(ready: int, warming: int, phase: PoolPhase) returns (outcome: Outcome)
      requires Valid()
      modifies this`pool, api
      ensures Valid() && Own() == old(Own()) && outcome in {After(10), Fail}
      ensures outcome == After(10) ==> pool == old(pool).(status := PoolState(ready, warming, phase))
      ensures outcome == Fail ==> pool == old(pool)
      ensures api.calm ==> outcome == After(10) && api.world == old(api.world)
    {
      hide Legal, Inv, Exec, By;
      Yield();
      var refused := api.Refused();
      if refused {
        outcome := Fail;
      } else {
        pool := pool.(status := PoolState(ready, warming, phase));
        outcome := After(10);
      }
    }

    /** Steps 6 to 8, from the list on. */
    method FillFrom(list: seq<PodRef>, port: int, ghost was: World)
        returns (outcome: Outcome, ghost handled: nat, ghost made: seq<string>)
      requires Valid() && Tracks(api.world, pool.workload, list, 0, {}) && Lists(api.world, pool.workload, list)
      requires api.calm ==> Exact(was, api.world, pool.workload, list, 0, {})
      modifies this`pool, api
      ensures Valid() && outcome in {After(10), Fail} && handled <= |list|
      ensures Own() == old(Own()) + Relabels(list[..handled]) + Creates(made, old(pool), port)
      ensures outcome == Fail ==> pool == old(pool)
      ensures outcome == After(10) ==> Reported(old(pool), pool, list, handled, |made|)
      ensures api.calm ==>
                && outcome == After(10)
                && exists names: set<string> ::
                     |names| == |made| && Exact(was, api.world, pool.workload, list, |list|, names)
    {
      hide Tracks, Exact, Enabled, Apply, By, Legal, Inv;
      outcome, handled, made := Fail, 0, [];
      assert Creates(made, pool, port) == [];
      PoolShape(api.world, pool.workload, list);
      var done, warming, ready, upto := Relabel(list, was);
      handled := upto;
      if done {
        var filled, total, created := Fill(list, warming, port, was);
        made := created;
        if filled {
          var phase := if total > 0 then Degraded else Healthy;
          outcome := SetPoolStatus(ready, total, phase);
        }
      }
    }

    /** Steps 5 to 8 for a ready workload.  A completed pass reports exactly what it listed and created, and
        creates as many pods as the gap and the cap allow; a pass that stops on an error has done a part of that. */
    method FillPass(port: int)
        returns (outcome: Outcome, ghost listed: seq<PodRef>, ghost handled: nat, ghost made: seq<string>)
      requires Valid()
      modifies this`pool, api
      ensures Valid() && outcome in {After(10), Fail} && handled <= |listed|
      ensures Own() == old(Own()) + Relabels(listed[..handled]) + Creates(made, old(pool), port)
      ensures outcome == Fail ==> pool == old(pool)
      ensures outcome == After(10) ==> Reported(old(pool), pool, listed, handled, |made|)
      ensures api.calm ==>
                && outcome == After(10) && Shown(api.world, pool.workload, pool.status)
                && Passed(old(api.world), api.world, pool.workload, pool.size,
                          if pool.maxFill.Some? then pool.maxFill.value else 2)
    {
      hide Tracks, Enabled, Apply, By, Legal, Inv, Exact, Lists, Passed, Shown;
      ghost var p := pool;
      listed, handled, made := [], 0, [];
      assert Creates(made, pool, port) == [];
      NothingHandled(listed);
      outcome := Fail;
      var list := ListPoolPods();
      if list.Some? {
        ghost var was := api.world;
        listed := list.value;
        outcome, handled, made := FillFrom(list.value, port, was);
        if api.calm {
          ghost var names: set<string> :|
            |names| == |made| && Exact(was, api.world, p.workload, listed, |listed|, names);
          ExactPass(was, api.world, p.workload, listed, names, p.size, Cap(p));
          ReportIsShown(was, api.world, p.workload, listed, p, pool, |made|);
        }
      }
    }

    /** Step 2. */
    method AddFinalizer() returns (outcome: Outcome)
      requires Valid()
      modifies this`pool, api
      ensures Valid() && Own() == old(Own()) && outcome in {Requeue, Fail}
      ensures pool == if outcome == Requeue then old(pool).(finalizer := true) else old(pool)
      ensures api.calm ==> outcome == Requeue
    {
      hide Legal, Inv, Exec, By;
      Yield();
      var refused := api.Refused();
      outcome := Fail;
      if !refused {
        pool := pool.(finalizer := true);
        outcome := Requeue;
      }
    }

    /** Step 3.  The finalizer goes, and the pool object with it, only after every labelled pod. */
    method HandleDeletion() returns (outcome: Outcome)
      requires Valid() && present
      modifies this, api
      ensures Valid() && Own() == old(Own()) && SameSpec(old(pool), pool) && outcome in {Done, Fail}
      ensures outcome == Done <==> !present
      ensures outcome == Done ==> NoneWithPoolLabel(api.world, pool.workload)
      ensures api.calm ==> outcome == Done && OthersKept(old(api.world), api.world, pool.workload)
    {
      hide Legal, Inv, Exec, By, Labelled, NoneWithPoolLabel, OthersKept;
      outcome := Fail;
      var done, listed := DeletePoolPods();
      if done {
        ghost var mid := api.world;
        Yield();
        LabelledShrinks(mid, api.world, pool.workload);
        LabelledIs(api.world, pool.workload);
        if api.calm {
          RestKept(old(api.world), api.world, pool.workload);
        }
        var refused := api.Refused();
        if !refused {
          pool := pool.(finalizer := false);
          present := false;
          outcome := Done;
        }
      }
    }

    /** Steps 4 to 8: a missing or unready workload is reported as an error, otherwise fill. */
    method Serve() returns (outcome: Outcome, ghost pass: bool)
      requires Valid()
      modifies this`pool, api
      ensures Valid() && SameSpec(old(pool), pool) && outcome in {After(10), Fail}
      ensures outcome == After(10) ==> (pool.status.phase == Invalid <==> !pass)
      ensures outcome == After(10) && !pass ==> Own() == old(Own()) && pool.status == PoolState(0, 0, Invalid)
      ensures outcome == After(10) && pool.status.phase == Healthy && Cap(pool) >= 1 ==> pool.status.ready >= pool.size
      ensures api.calm ==>
                && outcome == After(10)
                && (pass <==> && pool.workload in old(api.world).workloads
                              && old(api.world).workloads[pool.workload].ready)
      ensures pass && api.calm ==>
                && Shown(api.world, pool.workload, pool.status)
                && Passed(old(api.world), api.world, pool.workload, pool.size,
                          if pool.maxFill.Some? then pool.maxFill.value else 2)
    {
      hide Legal, Inv, Exec, By;
      Yield();
      pass := false;
      var refused := api.Refused();
      if refused {
        outcome := Fail;
      } else if !WorkloadUp(api.world, pool.workload) {
        outcome := SetPoolStatus(0, 0, Invalid);
      } else {
        var port := api.world.workloads[pool.workload].port;
        ghost var was := pool;
        ghost var listed, handled, made;
        outcome, listed, handled, made := FillPass(port);
        if outcome == After(10) {
          pass := true;
          HealthyMeansFull(was, pool, listed, handled, |made|);
        }
      }
    }

    /** One reconcile of the pool. */
    method Reconcile() returns (outcome: Outcome, ghost pass: bool)
      requires Valid()
      modifies this, api
      ensures Valid() && SameSpec(old(pool), pool)
      ensures outcome == Done ==> !present && Own() == old(Own())
      ensures outcome == Done && old(present) ==> NoneWithPoolLabel(api.world, pool.workload)
      ensures outcome == Requeue ==>
                pool == old(pool).(finalizer := true) && !old(pool).finalizer && Own() == old(Own())
      ensures old(pool).deleting || !old(pool).finalizer || !old(present) ==> Own() == old(Own())
      ensures outcome == After(10) && pool.status.phase == Healthy && Cap(pool) >= 1 ==> pool.status.ready >= pool.size
      ensures outcome == After(10) && !pass ==> Own() == old(Own()) && pool.status == PoolState(0, 0, Invalid)
      ensures api.calm ==> outcome != Fail
      ensures api.calm && old(present) && old(pool).finalizer && !old(pool).deleting ==>
                && outcome == After(10)
                && (pass <==> && pool.workload in old(api.world).workloads
                              && old(api.world).workloads[pool.workload].ready)
                && (pass ==> && Shown(api.world, pool.workload, pool.status)
                             && Passed(old(api.world), api.world, pool.workload, pool.size,
                                       if pool.maxFill.Some? then pool.maxFill.value else 2))
      ensures api.calm && old(present) && old(pool).finalizer && old(pool).deleting ==>
                && outcome == Done && OthersKept(old(api.world), api.world, pool.workload)
    {
      hide Legal, Inv, Exec, By;
      Yield();
      pass := false;
      var refused := api.Refused();
      if refused {
        outcome := Fail;
      } else if !present {
        outcome := Done;
      } else if !pool.finalizer {
        outcome := AddFinalizer();
      } else if pool.deleting {
        outcome := HandleDeletion();
      } else {
        outcome, pass := Serve();
      }
    }
  }
}
