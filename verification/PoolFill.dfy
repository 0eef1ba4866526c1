/** How fast a warm pool fills: runs of completed pool passes between which the warming pods become ready. */
module PoolFill {
  import opened Cluster
  import opened ClusterSafety
  import opened PoolReconcilers

  /** Between two passes every warming pod has become ready and no pod has left the pool. */
  ghost predicate Warmed(w: World, w': World, wl: string) {
    PoolPods(w', wl) == PoolPods(w, wl) && UnripePods(w', wl) == {}
  }

  /** A pass, and the wait after it. */
  ghost predicate PassAndWait(w: World, mid: World, w': World, wl: string, spec: PoolSpec) {
    Passed(w, mid, wl, spec.size, spec.cap) && Warmed(mid, w', wl)
  }

  /** k passes: worlds 2i and 2i + 1 are before and after the i-th. */
  ghost predicate Filling(ws: seq<World>, wl: string, spec: PoolSpec, k: nat) {
    && |ws| == 2 * k + 1
    && (forall i :: 0 <= i < |ws| ==> wl in ws[i].pools && ws[i].pools[wl] == spec)
    && (forall i :: 0 <= i < k ==> PassAndWait(ws[2 * i], ws[2 * i + 1], ws[2 * i + 2], wl, spec))
  }

  function Min(a: int, b: int): int { if a < b then a else b }

  lemma {:induction false} AllRipe(ws: seq<World>, wl: string, spec: PoolSpec, k: nat)
    requires Filling(ws, wl, spec, k) && PoolPods(ws[0], wl) == {}
    ensures UnripePods(ws[2 * k], wl) == {}
  {
    if k == 0 {
      assert UnripePods(ws[0], wl) <= PoolPods(ws[0], wl);
    } else {
      assert PassAndWait(ws[2 * (k - 1)], ws[2 * (k - 1) + 1], ws[2 * (k - 1) + 2], wl, spec);
    }
  }

  lemma FillingPrefix(ws: seq<World>, wl: string, spec: PoolSpec, k: nat)
    requires Filling(ws, wl, spec, k) && k > 0
    ensures Filling(ws[..2 * k - 1], wl, spec, k - 1)
  {
    var before := ws[..2 * k - 1];
    forall i | 0 <= i < k - 1
      ensures PassAndWait(before[2 * i], before[2 * i + 1], before[2 * i + 2], wl, spec)
    {
      hide PassAndWait;
      assert PassAndWait(ws[2 * i], ws[2 * i + 1], ws[2 * i + 2], wl, spec);
    }
  }

  /** One pass of a pool without warming pods, and the wait after it. */
  lemma OnePass(w: World, mid: World, w': World, wl: string, spec: PoolSpec, n: nat)
    requires spec.size >= 0 && spec.cap >= 1
    requires PassAndWait(w, mid, w', wl, spec) && UnripePods(w, wl) == {}
    requires |PoolPods(w, wl)| == Min(spec.size, n)
    ensures |PoolPods(w', wl)| == Min(spec.size, n + spec.cap) && PoolPods(w, wl) <= PoolPods(w', wl)
  {
    var more := PassedCounts(w, mid, wl, spec.size, spec.cap);
    hide PoolPods, UnripePods, PodsWith, Passed;
  }

  /** From an empty pool, if warming pods become ready between passes and none is acquired, k passes make
      exactly min(size, k * cap) pods, and what one pass makes later ones keep. */
  lemma {:induction false} PoolAfterPasses(ws: seq<World>, wl: string, spec: PoolSpec, k: nat)
    requires Filling(ws, wl, spec, k) && PoolPods(ws[0], wl) == {} && spec.size >= 0 && spec.cap >= 1
    ensures |PoolPods(ws[2 * k], wl)| == Min(spec.size, k * spec.cap)
    ensures k > 0 ==> PoolPods(ws[2 * (k - 1)], wl) <= PoolPods(ws[2 * k], wl)
    decreases k
  {
    hide PassAndWait, PoolPods, UnripePods;
    if k > 0 {
      FillingPrefix(ws, wl, spec, k);
      PoolAfterPasses(ws[..2 * k - 1], wl, spec, k - 1);
      AllRipe(ws[..2 * k - 1], wl, spec, k - 1);
      assert PassAndWait(ws[2 * (k - 1)], ws[2 * (k - 1) + 1], ws[2 * (k - 1) + 2], wl, spec);
      OnePass(ws[2 * k - 2], ws[2 * k - 1], ws[2 * k], wl, spec, (k - 1) * spec.cap);
      assert (k - 1) * spec.cap + spec.cap == k * spec.cap;
    }
  }

  /** The number of passes that fill a pool: size divided by cap, rounded up. */
  function Passes(spec: PoolSpec): (k: nat)
    requires spec.size >= 0 && spec.cap >= 1
    ensures k * spec.cap >= spec.size && (k > 0 ==> (k - 1) * spec.cap < spec.size)
  {
    RoundUp(spec.size, spec.cap);
    (spec.size + spec.cap - 1) / spec.cap
  }

  lemma RoundUp(size: int, cap: int)
    requires size >= 0 && cap >= 1
    ensures var k := (size + cap - 1) / cap; k >= 0 && k * cap >= size && (k > 0 ==> (k - 1) * cap < size)
  {
    var k := (size + cap - 1) / cap;
    var r := (size + cap - 1) % cap;
    assert size + cap - 1 == k * cap + r && 0 <= r < cap;
    assert (k - 1) * cap == k * cap - cap;
  }

  lemma MoreTimes(k: nat, n: nat, cap: int)
    requires k <= n && cap >= 1
    ensures k * cap <= n * cap
  {
    assert n * cap == k * cap + (n - k) * cap;
  }

  /** A pool is full after exactly that many passes, and no earlier; from then on passes create nothing. */
  lemma FullAfter(ws: seq<World>, wl: string, spec: PoolSpec, k: nat)
    requires Filling(ws, wl, spec, k) && PoolPods(ws[0], wl) == {} && spec.size >= 0 && spec.cap >= 1
    ensures |PoolPods(ws[2 * k], wl)| == spec.size <==> k >= Passes(spec)
    ensures k > Passes(spec) ==> PoolPods(ws[2 * k], wl) == PoolPods(ws[2 * (k - 1)], wl)
  {
    hide PassAndWait, PoolPods, UnripePods;
    PoolAfterPasses(ws, wl, spec, k);
    var n := Passes(spec);
    if k >= n {
      MoreTimes(n, k, spec.cap);
    } else {
      MoreTimes(k, n - 1, spec.cap);
    }
    if k > n {
      MoreTimes(n, k - 1, spec.cap);
      FillingPrefix(ws, wl, spec, k);
      PoolAfterPasses(ws[..2 * k - 1], wl, spec, k - 1);
      SameCard(PoolPods(ws[2 * (k - 1)], wl), PoolPods(ws[2 * k], wl));
    }
  }

  lemma SameCard<T>(a: set<T>, b: set<T>)
    requires a <= b && |a| == |b|
    ensures a == b
  {
    if x :| x in b && x !in a {
      CardLe(a + {x}, b);
    }
  }
}
