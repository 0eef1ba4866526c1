/** Runs from an empty cluster that end where the documentation says no run ends: a claim that reports
    pool+data but names a pod without the tenant's data, in two ways, and a deletion that loses a snapshot. */
module FailingRuns {
  import opened Wrappers
  import opened Cluster
  import opened ClusterRuns
  import opened OverlayRuns
  import opened ApiServers
  import opened ClaimPlan
  import ClaimReconcilers
  import opened ClaimProgress
  import opened ReleaseLimits

  const KEY := Key("t", "w")
  const WORKLOAD := Workload(true, true, 0, Hibernate, true, 80)
  const WORKLOADS := map["w" := WORKLOAD]
  const POOLS := map["w" := PoolSpec(1, 1)]
  const READ := Found(WORKLOAD)

  /** One hibernating workload with overlay dirs and a pool of one; nothing has happened yet. */
  const EMPTY := World(map[], map[], map[], map[], map[], WORKLOADS, POOLS, true, None, {}, map[], 0, 0, 0)

  const PENDING := NEW_STATUS.(phase := Pending)

  /** The claim controller's acts in reconciles of claim "c" that got these answers, by the decision table. */
  ghost function Planned(ss: seq<Seen>): seq<Act> {
    if ss == [] then [] else Planned(ss[..|ss| - 1]) + ReconcilePlan("c", true, ss[|ss| - 1]).acts
  }

  /** A run, the answers of the reconciles that are over, the acts of the one in progress, and the world the run
      leads to. */
  datatype Run = Run(acts: seq<Act>, seen: seq<Seen>, own: seq<Act>, world: World) {
    ghost predicate Real() {
      Legal(EMPTY, acts) && Exec(EMPTY, acts) == world && By(acts, Claims) == Planned(seen) + own
    }

    ghost function Next(a: Act, w: World): Run {
      Run(acts + [a], seen, if ActorOf(a) == Claims then own + [a] else own, w)
    }
  }

  lemma Go(r: Run, a: Act) returns (r': Run)
    requires r.Real() && Enabled(r.world, a)
    ensures r'.Real() && r' == r.Next(a, Apply(r.world, a))
  {
    hide Enabled, Apply;
    r' := r.Next(a, Apply(r.world, a));
    LegalStep(EMPTY, r.acts, a);
    ByOne(r.acts, a, Claims);
    assert Planned(r.seen) + r.own + [a] == Planned(r.seen) + (r.own + [a]);
  }

  /** A reconcile is over that did what the decision table says. */
  lemma Over(r: Run, s: Seen) returns (r': Run)
    requires r.Real() && r.own == ReconcilePlan("c", true, s).acts
    ensures r' == r.(seen := r.seen + [s], own := []) && r'.Real()
  {
    hide Legal, Exec, By, ReconcilePlan;
    r' := r.(seen := r.seen + [s], own := []);
    assert r'.seen[..|r'.seen| - 1] == r.seen;
  }

  // ---- Single acts --------------------------------------------------------------------

  lemma Create(r: Run) returns (r': Run)
    requires r.Real() && "c" !in r.world.claims
    ensures var w := r.world;
            r'.Real() && r' == r.Next(ECreateClaim("c", KEY, None), 
              w.(claims := w.claims["c" := Claim(KEY, w.rv + 1, false, false, None, NEW_STATUS, w.rv + 1)],
                 rv := w.rv + 1))
  {
    hide Legal, Exec, By, Run.Real;
    r' := Go(r, ECreateClaim("c", KEY, None));
  }

  lemma Begin(r: Run) returns (r': Run)
    requires r.Real() && "c" in r.world.claims
    ensures var w := r.world;
            r'.Real() && r' == r.Next(CBegin("c"), 
              w.(turn := Some(Turn("c", w.claims["c"], [], map[])), rv := w.rv + 1))
  {
    hide Legal, Exec, By, Run.Real;
    r' := Go(r, CBegin("c"));
  }

  lemma AddFinalizer(r: Run) returns (r': Run)
    requires r.Real() && Unmoved(r.world)
    requires var c := r.world.turn.value.claim; !c.deleting && !c.finalizer && Fresh(c.status.phase)
    ensures var w := r.world;
            r'.Real() && r' == r.Next(CFinalize, 
              w.(claims := w.claims[w.turn.value.name := w.turn.value.claim.(finalizer := true, rv := w.rv + 1)],
                 rv := w.rv + 1))
  {
    hide Legal, Exec, By, Run.Real, MayWrite;
    r' := Go(r, CFinalize);
  }

  lemma WriteStatus(r: Run, st: Status) returns (r': Run)
    requires r.Real() && Unmoved(r.world) && MayWrite(r.world, st)
    ensures var w := r.world;
            r'.Real() && r' == r.Next(CStatus(st), 
              w.(claims := w.claims[w.turn.value.name := w.turn.value.claim.(status := st, rv := w.rv + 1)],
                 rv := w.rv + 1))
  {
    hide Legal, Exec, By, Run.Real, MayWrite;
    r' := Go(r, CStatus(st));
  }

  lemma ReadWorkload(r: Run) returns (r': Run)
    requires r.Real() && r.world.turn.Some? && r.world.turn.value.claim.key == KEY && r.world.turn.value.views == []
    requires r.world.workloads == WORKLOADS
    ensures var w := r.world;
            r'.Real() && r' == r.Next(CRead(READ), 
              w.(turn := Some(w.turn.value.(views := [READ])), rv := w.rv + 1))
  {
    hide Legal, Exec, By, Run.Real;
    assert [] + [READ] == [READ];
    r' := Go(r, CRead(READ));
  }

  /** The reconcile in progress serves the claim, which is as it was read. */
  ghost predicate Serving(w: World, st: Status) {
    && "c" in w.claims && w.turn == Some(Turn("c", w.claims["c"], [READ], map[])) && w.workloads == WORKLOADS
    && var c := w.claims["c"]; c.key == KEY && c.finalizer && !c.deleting && c.status == st && st.phase == Pending
  }

  lemma ColdBoot(r: Run, p: string, st: Status) returns (r': Run)
    requires r.Real() && Serving(r.world, st) && p !in r.world.used && r.world.pods == map[]
    ensures var w := r.world;
            r'.Real() && r' == r.Next(CCreate(p), 
              w.(pods := map[p := Pod("w", Some("t"), NoPool, PodPending, false, "", 80, w.rv + 1)],
                 disks := w.disks[p := []], used := w.used + {p}, rv := w.rv + 1))
  {
    hide Legal, Exec, By, Run.Real;
    assert TenantPods(r.world, KEY) == {};
    r' := Go(r, CCreate(p));
  }

  lemma WriteFile(r: Run, p: string, bytes: Bytes) returns (r': Run)
    requires r.Real() && p in r.world.pods
    ensures var w := r.world;
            r'.Real() && r' == r.Next(EWrite(p, bytes), w.(disks := w.disks[p := bytes], rv := w.rv + 1))
  {
    hide Legal, Exec, By, Run.Real;
    r' := Go(r, EWrite(p, bytes));
  }

  lemma MarkDeleted(r: Run) returns (r': Run)
    requires r.Real() && "c" in r.world.claims && r.world.claims["c"].finalizer
    ensures var w := r.world;
            r'.Real() && r' == r.Next(EMarkDeleted("c"), 
              w.(claims := w.claims["c" := w.claims["c"].(deleting := true, rv := w.rv + 1)], rv := w.rv + 1))
  {
    hide Legal, Exec, By, Run.Real;
    r' := Go(r, EMarkDeleted("c"));
  }

  /** The reconcile in progress ends the claim, which is as it was read. */
  ghost predicate Closing(w: World) {
    && "c" in w.claims && w.turn.Some? && w.snapshots
    && w.turn.value.(saved := map[]) == Turn("c", w.claims["c"], [READ], map[])
    && var c := w.claims["c"]; c.key == KEY && c.finalizer && c.deleting
  }

  lemma Extract(r: Run, p: string, x: Extraction) returns (r': Run)
    requires r.Real() && Closing(r.world) && r.world.turn.value.saved == map[]
    requires p in r.world.pods && p in r.world.used && Bound(r.world.pods[p], KEY)
    requires p in r.world.disks && r.world.disks[p] != [] && x in {Stored, FailedTorn(true)}
    ensures var w := r.world;
            r'.Real() && r' == r.Next(CExtract(p, x), 
              w.(snaps := w.snaps[KEY := if x == Stored then Good(w.disks[p]) else Torn(true)],
                 turn := Some(w.turn.value.(saved := if x == Stored then map[p := w.disks[p]] else map[])),
                 rv := w.rv + 1))
  {
    hide Legal, Exec, By, Run.Real;
    r' := Go(r, CExtract(p, x));
  }

  lemma Reap(r: Run, p: string) returns (r': Run)
    requires r.Real() && Closing(r.world) && p in r.world.turn.value.saved
    requires p in r.world.pods && Bound(r.world.pods[p], KEY)
    ensures var w := r.world;
            r'.Real()
            && r' == r.Next(CDelete(p, Cluster.Reap), w.(pods := w.pods - {p}, disks := w.disks - {p}, rv := w.rv + 1))
  {
    hide Legal, Exec, By, Run.Real;
    r' := Go(r, CDelete(p, Cluster.Reap));
  }

  lemma Lose(r: Run, p: string) returns (r': Run)
    requires r.Real() && p in r.world.pods
    ensures var w := r.world;
            r'.Real() && r' == r.Next(ERemovePod(p), w.(pods := w.pods - {p}, disks := w.disks - {p}, rv := w.rv + 1))
  {
    hide Legal, Exec, By, Run.Real;
    r' := Go(r, ERemovePod(p));
  }

  lemma DropFinalizer(r: Run) returns (r': Run)
    requires r.Real() && Closing(r.world) && r.world.pods == map[] && r.world.secrets == map[]
    ensures var w := r.world;
            r'.Real() && r' == r.Next(CUnfinalize, w.(claims := w.claims - {"c"}, rv := w.rv + 1))
  {
    hide Legal, Exec, By, Run.Real;
    assert TenantPods(r.world, KEY) == {};
    r' := Go(r, CUnfinalize);
  }

  lemma FillPool(r: Run, p: string) returns (r': Run)
    requires r.Real() && r.world.pods == map[] && p !in r.world.used && r.world.pools == POOLS
    ensures var w := r.world;
            r'.Real() && r' == r.Next(PCreate(p, "w", 80), 
              w.(pods := map[p := Pod("w", None, Warming, PodPending, false, "", 80, w.rv + 1)],
                 disks := w.disks[p := []], used := w.used + {p}, rv := w.rv + 1))
  {
    hide Legal, Exec, By, Run.Real;
    assert PoolPods(r.world, "w") == {} && WarmingPods(r.world, "w") == {};
    r' := Go(r, PCreate(p, "w", 80));
  }

  lemma Start(r: Run, p: string, ip: string) returns (r': Run)
    requires r.Real() && p in r.world.pods && r.world.pods[p].phase == PodPending
    ensures var w := r.world;
            r'.Real() && r' == r.Next(EKubelet(p, PodRunning, true, ip), 
              w.(pods := w.pods[p :=
                   w.pods[p].(phase := PodRunning, containersReady := true, ip := ip, rv := w.rv + 1)],
                 rv := w.rv + 1))
  {
    hide Legal, Exec, By, Run.Real;
    r' := Go(r, EKubelet(p, PodRunning, true, ip));
  }

  lemma Relabel(r: Run, p: string) returns (r': Run)
    requires r.Real() && p in r.world.pods && r.world.pods[p].status == Warming
    requires r.world.pods[p].phase == PodRunning && r.world.pods[p].containersReady
    ensures var w := r.world;
            r'.Real() && r' == r.Next(PReady(p), 
              w.(pods := w.pods[p := w.pods[p].(status := Ready, rv := w.rv + 1)], rv := w.rv + 1))
  {
    hide Legal, Exec, By, Run.Real;
    r' := Go(r, PReady(p));
  }

  lemma Acquire(r: Run, p: string, st: Status) returns (r': Run)
    requires r.Real() && Serving(r.world, st) && r.world.pods.Keys == {p}
    requires r.world.pods[p].status == Ready && r.world.pods[p].workload == "w" && r.world.pods[p].tenant == None
    ensures var w := r.world;
            r'.Real() && r' == r.Next(CAcquire(p), 
              w.(pods := w.pods[p := w.pods[p].(tenant := Some("t"), status := Acquired, rv := w.rv + 1)],
                 rv := w.rv + 1))
  {
    hide Legal, Exec, By, Run.Real;
    assert TenantPods(r.world, KEY) == {};
    r' := Go(r, CAcquire(p));
  }

  lemma Inject(r: Run, p: string, st: Status) returns (r': Run)
    requires r.Real() && Serving(r.world, st) && p in r.world.pods && Bound(r.world.pods[p], KEY)
    requires r.world.pods[p].status == Acquired && p in r.world.used && p !in r.world.injected
    requires p in r.world.disks && KEY in r.world.snaps && r.world.snaps[KEY] != Torn(false)
    ensures var w := r.world;
            r'.Real() && r' == r.Next(CInject(p, true, []), 
              w.(disks := w.disks[p := if w.snaps[KEY].Good? then w.snaps[KEY].archive else w.disks[p]],
                 injected := w.injected[p := Injection(KEY, w.snaps[KEY])], rv := w.rv + 1))
  {
    hide Legal, Exec, By, Run.Real;
    assert r.world.disks == r.world.disks[p := r.world.disks[p]];
    r' := Go(r, CInject(p, true, []));
  }

  // ---- Stages ---------------------------------------------------------------------------

  /** What all the worlds between two reconciles have in common. */
  ghost predicate Setting(r: Run) {
    && r.Real() && r.own == [] && r.world.workloads == WORKLOADS && r.world.pools == POOLS
    && r.world.snapshots && r.world.secrets == map[] && r.world.now == 0
  }

  /** The claim waits for its pod. */
  ghost predicate Waiting(w: World, st: Status) {
    && w.claims.Keys == {"c"} && st.phase == Pending
    && var c := w.claims["c"]; c.key == KEY && c.finalizer && !c.deleting && c.status == st
  }

  lemma AnnouncementPlanned(c: Claim)
    requires !c.deleting && c.status == NEW_STATUS
    ensures ReconcilePlan("c", true, BLANK.(claim := Got(c))).acts
            == [CBegin("c"), if c.finalizer then CStatus(PENDING) else CFinalize]
  {
  }

  /** A client makes the claim, and two reconciles take it to Pending. */
  lemma Announce(r: Run) returns (r': Run)
    requires Setting(r) && r.world.claims == map[]
    ensures Setting(r') && Waiting(r'.world, PENDING)
    ensures var w := r.world; r'.world == w.(claims := r'.world.claims, turn := r'.world.turn, rv := r'.world.rv)
  {
    hide Legal, Exec, By, Run.Real, Planned, Enabled, Apply, MayWrite, ReconcilePlan;
    r' := Create(r);
    r' := Begin(r');
    var c := r'.world.claims["c"];
    r' := AddFinalizer(r');
    AnnouncementPlanned(c);
    r' := Over(r', BLANK.(claim := Got(c)));
    r' := Begin(r');
    c := r'.world.claims["c"];
    PendingMay(r'.world);
    r' := WriteStatus(r', PENDING);
    AnnouncementPlanned(c);
    r' := Over(r', BLANK.(claim := Got(c)));
  }

  lemma PendingMay(w: World)
    requires w.turn.Some? && !w.turn.value.claim.deleting && w.turn.value.claim.finalizer
    requires w.turn.value.claim.status == NEW_STATUS
    ensures MayWrite(w, PENDING)
  {
    assert ToPending(w.turn.value, PENDING);
  }

  /** A reconcile of the waiting claim up to the Get of the workload. */
  lemma Serve(r: Run, st: Status) returns (r': Run)
    requires Setting(r) && Waiting(r.world, st)
    ensures r'.Real() && r'.seen == r.seen && r'.own == [CBegin("c"), CRead(READ)]
    ensures r'.acts == r.acts + [CBegin("c")] + [CRead(READ)]
    ensures Serving(r'.world, st) && r'.world == r.world.(turn := r'.world.turn, rv := r'.world.rv)
  {
    hide Legal, Exec, By, Run.Real, Planned, Enabled, Apply;
    r' := Begin(r);
    r' := ReadWorkload(r');
  }

  /** A reconcile finds no pod at all and makes one. */
  lemma Boot(r: Run, p: string, st: Status) returns (r': Run)
    requires Setting(r) && Waiting(r.world, st) && r.world.pods == map[] && p !in r.world.used
    ensures r'.Real() && r'.seen == r.seen && r'.own == [CBegin("c"), CRead(READ), CCreate(p)]
    ensures Serving(r'.world, st) && r'.world.claims == r.world.claims
    ensures var w, w' := r.world, r'.world;
            w' == w.(pods := map[p := Pod("w", Some("t"), NoPool, PodPending, false, "", 80, w'.rv)],
                     disks := w.disks[p := []], used := w.used + {p}, turn := w'.turn, rv := w'.rv)
  {
    hide Legal, Exec, By, Run.Real, Planned, Enabled, Apply;
    r' := Serve(r, st);
    r' := ColdBoot(r', p, st);
  }

  /** The answers of a reconcile that makes pod p. */
  function Booted(c: Claim, p: PodRef, wrote: bool): Seen {
    BLANK.(claim := Got(c), first := READ, got := BLANK.got.(created := Some(p)), wrote := wrote)
  }

  lemma BootPlanned(c: Claim, p: PodRef, wrote: bool)
    requires WantsPod(c) && p.pod.ip == "" && c.status.source != Cold
    ensures ReconcilePlan("c", true, Booted(c, p, wrote)).acts
            == [CBegin("c"), CRead(READ), CCreate(p.name)]
               + if wrote then [CStatus(c.status.(source := Cold, instance := Some(p.name)))] else []
  {
  }

  /** There are no claims and no pods. */
  ghost predicate Quiet(r: Run, snaps: map<Key, Snapshot>, used: set<string>) {
    && Setting(r) && r.world.claims == map[] && r.world.pods == map[] && r.world.disks == map[]
    && r.world.injected == map[] && r.world.snaps == snaps && r.world.used == used
  }

  /** Pod p is the only one, and the tenant has put one byte into it. */
  ghost predicate Holds(w: World, p: string, snaps: map<Key, Snapshot>, used: set<string>) {
    && w.pods.Keys == {p} && Bound(w.pods[p], KEY) && w.disks == map[p := [1]] && p in used
    && w.injected == map[] && w.snaps == snaps && w.used == used
  }

  /** A claim is served by pod p, which then gets some data. */
  lemma Populate(r: Run, p: string, snaps: map<Key, Snapshot>, used: set<string>) returns (r': Run)
    requires Quiet(r, snaps, used) && p !in used
    ensures Setting(r') && Waiting(r'.world, PENDING.(source := Cold, instance := Some(p)))
    ensures Holds(r'.world, p, snaps, used + {p})
  {
    hide Legal, Exec, By, Run.Real, Planned, Enabled, Apply, MayWrite, ReconcilePlan;
    r' := Announce(r);
    r' := Boot(r', p, PENDING);
    var c, ref := r'.world.claims["c"], PodRef(p, r'.world.pods[p]);
    ClaimReconcilers.StashMayBeWritten(r'.world, ref, Cold);
    r' := WriteStatus(r', PENDING.(source := Cold, instance := Some(p)));
    BootPlanned(c, ref, true);
    r' := Over(r', Booted(c, ref, true));
    r' := WriteFile(r', p, [1]);
  }

  /** A reconcile of the deleted claim up to the Get of the workload. */
  lemma Close(r: Run) returns (r': Run)
    requires Setting(r) && r.world.claims.Keys == {"c"}
    requires var c := r.world.claims["c"]; c.key == KEY && c.finalizer && c.deleting
    ensures r'.Real() && r'.seen == r.seen && r'.own == [CBegin("c"), CRead(READ)]
    ensures r'.acts == r.acts + [CBegin("c")] + [CRead(READ)]
    ensures Closing(r'.world) && r'.world.turn.value.saved == map[]
    ensures r'.world == r.world.(turn := r'.world.turn, rv := r'.world.rv)
  {
    hide Legal, Exec, By, Run.Real, Planned, Enabled, Apply;
    r' := Begin(r);
    r' := ReadWorkload(r');
  }

  /** The answers of a reconcile of the deleted claim. */
  function Closed(c: Claim, p: Answer<PodRef>, xs: seq<Extraction>): Seen {
    BLANK.(claim := Got(c), first := READ, tenantPod := p, extractions := xs, podDeleted := Removed)
  }

  lemma ClosePlanned(c: Claim, p: PodRef, x: Extraction)
    requires c.deleting && c.finalizer && x in {Stored, FailedTorn(true)}
    ensures ReconcilePlan("c", true, Closed(c, Got(p), [x])).acts
            == [CBegin("c"), CRead(READ), CExtract(p.name, x)]
               + if x == Stored then [CDelete(p.name, Cluster.Reap), CUnfinalize] else []
    ensures ReconcilePlan("c", true, Closed(c, Absent, [])).acts == [CBegin("c"), CRead(READ), CUnfinalize]
  {
    assert ExtractActs(p.name, [x]) == [CExtract(p.name, x)];
  }

  /** The stored pod is deleted, and then the claim goes. */
  lemma Remove(r: Run, p: string) returns (r': Run)
    requires r.Real() && Closing(r.world) && r.world.pods.Keys == {p} && p in r.world.turn.value.saved
    requires Bound(r.world.pods[p], KEY) && r.world.secrets == map[]
    ensures var w := r.world;
            && r'.Real() && r' == Run(r'.acts, r.seen, r.own + [CDelete(p, Cluster.Reap)] + [CUnfinalize], r'.world)
            && r'.world == w.(pods := map[], disks := w.disks - {p}, claims := w.claims - {"c"}, rv := r'.world.rv)
  {
    hide Legal, Exec, By, Run.Real, Planned, Enabled, Apply;
    r' := Reap(r, p);
    assert r'.world.pods == map[];
    r' := DropFinalizer(r');
  }

  /** The claim is deleted, and its overlay stored. */
  lemma Store(r: Run, p: string, snaps: map<Key, Snapshot>, used: set<string>, st: Status) returns (r': Run)
    requires Setting(r) && Waiting(r.world, st) && Holds(r.world, p, snaps, used)
    ensures Quiet(r', snaps[KEY := Good([1])], used)
  {
    hide Legal, Exec, By, Run.Real, Planned, Enabled, Apply, ReconcilePlan, Bound;
    r' := MarkDeleted(r);
    r' := Close(r');
    var c, ref := r'.world.claims["c"], PodRef(p, r'.world.pods[p]);
    r' := Extract(r', p, Stored);
    r' := Remove(r', p);
    ClosePlanned(c, ref, Stored);
    r' := Over(r', Closed(c, Got(ref), [Stored]));
  }

  /** The claim is deleted; the one attempt to store its overlay fails and tears the files. */
  lemma Tear(r: Run, p: string, snaps: map<Key, Snapshot>, used: set<string>, st: Status) returns (r0: Run, r': Run)
    requires Setting(r) && Waiting(r.world, st) && Holds(r.world, p, snaps, used)
    ensures Setting(r0) && r0.world.snaps == snaps && r0.world.claims.Keys == {"c"} && r0.world.claims["c"].key == KEY
    ensures r0.world.claims["c"].deleting && r0.world.claims["c"].finalizer
    ensures r'.seen == r0.seen + [Closed(r0.world.claims["c"], Got(PodRef(p, r.world.pods[p])), [FailedTorn(true)])]
    ensures r'.acts == r0.acts + [CBegin("c")] + [CRead(READ)] + [CExtract(p, FailedTorn(true))]
    ensures Setting(r') && Holds(r'.world, p, snaps[KEY := Torn(true)], used) && r'.world.claims == r0.world.claims
  {
    hide Legal, Exec, By, Run.Real, Planned, Enabled, Apply, ReconcilePlan, Bound;
    r0 := MarkDeleted(r);
    r' := Close(r0);
    var c, ref := r'.world.claims["c"], PodRef(p, r'.world.pods[p]);
    r' := Extract(r', p, FailedTorn(true));
    ClosePlanned(c, ref, FailedTorn(true));
    r' := Over(r', Closed(c, Got(ref), [FailedTorn(true)]));
  }

  /** The pod is lost before the next attempt, so there is none. */
  lemma GiveUp(r: Run, p: string, snaps: map<Key, Snapshot>, used: set<string>) returns (r': Run)
    requires Setting(r) && r.world.claims.Keys == {"c"} && Holds(r.world, p, snaps, used)
    requires var c := r.world.claims["c"]; c.key == KEY && c.finalizer && c.deleting
    ensures Quiet(r', snaps, used)
  {
    hide Legal, Exec, By, Run.Real, Planned, Enabled, Apply, ReconcilePlan, Bound;
    r' := Lose(r, p);
    r' := Close(r');
    var c := r'.world.claims["c"];
    r' := DropFinalizer(r');
    ClosePlanned(c, NO_POD, Stored);
    r' := Over(r', Closed(c, Absent, []));
  }

  /** A first claim lives and dies: from the empty cluster to a stored overlay, or to a torn one. */
  lemma FirstLife(torn: bool) returns (r: Run)
    ensures Quiet(r, map[KEY := if torn then Torn(true) else Good([1])], {"p"})
  {
    r := Run([], [], [], EMPTY);
    assert Quiet(r, map[], {});
    hide Run.Real, Quiet, Holds, Waiting, Setting;
    r := Populate(r, "p", map[], {});
    var st := PENDING.(source := Cold, instance := Some("p"));
    if torn {
      var _, r1 := Tear(r, "p", map[], {"p"}, st);
      r := GiveUp(r1, "p", map[KEY := Torn(true)], {"p"});
    } else {
      r := Store(r, "p", map[], {"p"}, st);
    }
  }

  /** A pool pod becomes ready. */
  lemma Warm(r: Run, ip: string, st: Status, used: set<string>) returns (r': Run)
    requires Setting(r) && Waiting(r.world, st) && r.world.pods == map[] && r.world.disks == map[]
    requires "a" !in used && r.world.used == used
    ensures Setting(r') && Waiting(r'.world, st)
    ensures var w, w' := r.world, r'.world;
            w' == w.(pods := map["a" := Pod("w", None, Ready, PodRunning, true, ip, 80, w'.rv)],
                     disks := map["a" := []], used := used + {"a"}, rv := w'.rv)
  {
    hide Legal, Exec, By, Run.Real, Planned, Enabled, Apply;
    r' := FillPool(r, "a");
    r' := Start(r', "a", ip);
    r' := Relabel(r', "a");
  }

  /** A second claim of the tenant has just got the warm pod, and an inject of the snapshot reported success. */
  ghost predicate Refilled(r: Run, kept: Snapshot, ip: string) {
    && r.Real() && Serving(r.world, PENDING) && r.world.claims.Keys == {"c"}
    && r.own == [CBegin("c"), CRead(READ), CAcquire("a"), CInject("a", true, [])]
    && r.world.pods.Keys == {"a"} && Bound(r.world.pods["a"], KEY)
    && r.world.pods["a"].ip == ip && r.world.pods["a"].port == 80
    && r.world.disks == map["a" := if kept.Good? then kept.archive else []]
    && r.world.injected == map["a" := Injection(KEY, kept)] && r.world.used == {"p", "a"}
    && r.world.pools == POOLS && r.world.snapshots && r.world.secrets == map[] && r.world.now == 0
  }

  lemma SecondLife(r: Run, kept: Snapshot, ip: string) returns (r': Run)
    requires Quiet(r, map[KEY := kept], {"p"}) && kept != Torn(false)
    ensures Refilled(r', kept, ip)
  {
    hide Legal, Exec, By, Run.Real, Planned, Enabled, Apply;
    r' := Announce(r);
    r' := Warm(r', ip, PENDING, {"p"});
    r' := Serve(r', PENDING);
    r' := Acquire(r', "a", PENDING);
    r' := Inject(r', "a", PENDING);
  }

  /** The answers of the reconcile that got the warm pod. */
  function Claimed(c: Claim, p: PodRef): Seen {
    BLANK.(claim := Got(c), first := READ,
           got := BLANK.got.(poolPod := Got(p), acquired := true, hasSnapshot := true, injected := true, junk := []))
  }

  lemma ClaimPlanned(c: Claim, p: PodRef)
    requires WantsPod(c) && c.status == PENDING
    ensures ReconcilePlan("c", true, Claimed(c, p)).acts
            == [CBegin("c"), CRead(READ), CAcquire(p.name), CInject(p.name, true, []),
                CStatus(if p.pod.ip == "" then PENDING.(source := FromPoolData, instance := Some(p.name))
                        else ActiveStatus(PENDING, p, FromPoolData, 0))]
  {
  }

  // ---- The runs ---------------------------------------------------------------------------

  /** The run is one of the step system from an empty cluster, in which the claim controller did what the
      decision table says for these answers. */
  ghost predicate Genuine(acts: seq<Act>, seen: seq<Seen>) {
    Init(EMPTY) && Legal(EMPTY, acts) && By(acts, Claims) == Planned(seen)
  }

  /** Its last act makes claim "c" Active as pool+data, naming this pod, which exists. */
  ghost predicate ServedAsPoolData(acts: seq<Act>, st: Status, p: string)
    requires Legal(EMPTY, acts)
  {
    && |acts| > 0 && acts[|acts| - 1] == CStatus(st)
    && st.phase == Active && st.source == FromPoolData && st.instance == Some(p)
    && var w := At(EMPTY, acts, |acts|);
    && "c" in w.claims && w.claims["c"].status == st && p in w.pods && Bound(w.pods[p], KEY)
  }

  lemma EndOf(r: Run)
    requires Setting(r)
    ensures Genuine(r.acts, r.seen) && At(EMPTY, r.acts, |r.acts|) == r.world
  {
    assert r.acts[..|r.acts|] == r.acts;
    assert Planned(r.seen) + [] == Planned(r.seen);
  }

  /** The second claim becomes Active, or remembers the pod if it has no address yet. */
  lemma Served(r: Run, kept: Snapshot, ip: string) returns (r': Run, st: Status)
    requires Refilled(r, kept, ip)
    ensures st == if ip == "" then PENDING.(source := FromPoolData, instance := Some("a"))
                  else ActiveStatus(PENDING, PodRef("a", r.world.pods["a"]), FromPoolData, 0)
    ensures Setting(r') && r'.acts == r.acts + [CStatus(st)]
    ensures r'.world == r.world.(claims := r'.world.claims, rv := r'.world.rv) && r'.world.claims.Keys == {"c"}
    ensures r'.world.claims["c"] == r.world.claims["c"].(status := st, rv := r'.world.rv)
  {
    hide Legal, Exec, By, Run.Real, Planned, Enabled, Apply, MayWrite, ReconcilePlan;
    var c, ref := r.world.claims["c"], PodRef("a", r.world.pods["a"]);
    if ip == "" {
      st := PENDING.(source := FromPoolData, instance := Some("a"));
      ClaimReconcilers.StashMayBeWritten(r.world, ref, FromPoolData);
    } else {
      st := ActiveStatus(PENDING, ref, FromPoolData, 0);
      ClaimReconcilers.ActiveMayBeWritten(r.world, ref, FromPoolData);
    }
    r' := WriteStatus(r, st);
    ClaimPlanned(c, ref);
    r' := Over(r', Claimed(c, ref));
  }

  /** The store holds an empty archive file, left by a torn upload.  The inject reports success and puts
      nothing into the pod, and the claim becomes Active as pool+data with an empty pod. */
  lemma EmptyArchiveRun() returns (acts: seq<Act>, seen: seq<Seen>, st: Status)
    ensures Genuine(acts, seen) && ServedAsPoolData(acts, st, "a")
    ensures At(EMPTY, acts, |acts|).disks == map["a" := []]
    ensures var turn := At(EMPTY, acts, |acts|).turn; turn.Some? && turn.value.claim.status == PENDING
    ensures InjectedFor(At(EMPTY, acts, |acts|), "a", KEY) && !FilledBefore(EMPTY, acts, |acts|, "a", KEY)
  {
    hide Legal, Exec, By, Run.Real, Planned, At, Quiet, FilledBefore, Init;
    var r := FirstLife(true);
    r := SecondLife(r, Torn(true), "10.0.0.1");
    r, st := Served(r, Torn(true), "10.0.0.1");
    acts, seen := r.acts, r.seen;
    EndOf(r);
    FilledIff(EMPTY, acts, |acts|, "a", KEY);
  }

  /** The answers of a reconcile that adopts the pod. */
  function Adopted(c: Claim, p: PodRef): Seen {
    BLANK.(claim := Got(c), first := READ, tenantPod := Got(p))
  }

  lemma AdoptionPlanned(c: Claim, p: PodRef)
    requires WantsPod(c) && p.pod.phase == PodRunning && p.pod.ip != ""
    ensures ReconcilePlan("c", true, Adopted(c, p)).acts
            == [CBegin("c"), CRead(READ), CStatus(ActiveStatus(c.status, p, Existing, 0))]
  {
  }

  /** A claim that remembers pod "a" has got pod "b" by a cold boot, and its last write was refused. */
  ghost predicate Rebooted(r: Run, st: Status) {
    && Setting(r) && Waiting(r.world, st) && r.world.used == {"p", "a", "b"} && r.world.injected.Keys == {"a"}
    && r.world.disks == map["b" := []]
    && exists rv :: r.world.pods == map["b" := Pod("w", Some("t"), NoPool, PodPending, false, "", 80, rv)]
  }

  /** The remembered pod is lost, and a reconcile replaces it but cannot write the status. */
  lemma Reboot(r: Run, st: Status) returns (r': Run)
    requires Setting(r) && Waiting(r.world, st) && st.source == FromPoolData
    requires r.world.pods.Keys == {"a"} && r.world.disks.Keys == {"a"}
    requires r.world.used == {"p", "a"} && r.world.injected.Keys == {"a"}
    ensures Rebooted(r', st)
  {
    hide Legal, Exec, By, Run.Real, Planned, Enabled, Apply, ReconcilePlan;
    r' := Lose(r, "a");
    assert r'.world.pods == map[] && r'.world.disks == map[];
    r' := Boot(r', "b", st);
    var c, ref := r'.world.claims["c"], PodRef("b", r'.world.pods["b"]);
    BootPlanned(c, ref, false);
    r' := Over(r', Booted(c, ref, false));
  }

  /** A reconcile has found pod "b", which runs and has an address. */
  ghost predicate Located(r: Run, st: Status) {
    && r.Real() && Serving(r.world, st) && r.own == [CBegin("c"), CRead(READ)] && r.world.claims.Keys == {"c"}
    && r.world.used == {"p", "a", "b"} && r.world.injected.Keys == {"a"} && r.world.disks == map["b" := []]
    && r.world.pods.Keys == {"b"} && Bound(r.world.pods["b"], KEY)
    && r.world.pods["b"].phase == PodRunning && r.world.pods["b"].ip == "10.0.0.2"
    && r.world.pools == POOLS && r.world.snapshots && r.world.secrets == map[] && r.world.now == 0
  }

  lemma Address(r: Run, st: Status) returns (r': Run)
    requires Rebooted(r, st)
    ensures Located(r', st)
  {
    hide Legal, Exec, By, Run.Real, Planned, Enabled, Apply;
    r' := Start(r, "b", "10.0.0.2");
    r' := Serve(r', st);
  }

  /** It adopts the pod; the claim keeps the source it had remembered. */
  lemma Adopt(r: Run, st: Status) returns (r': Run, st': Status)
    requires Located(r, st) && st.source == FromPoolData
    ensures Setting(r') && r'.world.disks == map["b" := []] && r'.world.injected.Keys == {"a"}
    ensures |r'.acts| > 0 && r'.acts[|r'.acts| - 1] == CStatus(st')
    ensures st'.phase == Active && st'.source == FromPoolData && st'.instance == Some("b")
    ensures "c" in r'.world.claims && r'.world.claims["c"].status == st'
    ensures "b" in r'.world.pods && Bound(r'.world.pods["b"], KEY)
  {
    hide Legal, Exec, By, Run.Real, Planned, Enabled, Apply, MayWrite, ReconcilePlan;
    var c, ref := r.world.claims["c"], PodRef("b", r.world.pods["b"]);
    ClaimReconcilers.ActiveMayBeWritten(r.world, ref, Existing);
    st' := ActiveStatus(st, ref, Existing, 0);
    r' := WriteStatus(r, st');
    AdoptionPlanned(c, ref);
    r' := Over(r', Adopted(c, ref));
  }

  /** A claim remembers pod "a" as injected, and "a" is lost.  Pod "b" is made in its place and then adopted as
      existing, and the claim becomes Active as pool+data with a pod that was never injected. */
  lemma StaleSourceRun() returns (acts: seq<Act>, seen: seq<Seen>, st: Status)
    ensures Genuine(acts, seen) && ServedAsPoolData(acts, st, "b")
    ensures At(EMPTY, acts, |acts|).disks == map["b" := []]
    ensures "b" !in At(EMPTY, acts, |acts|).injected && !FilledBefore(EMPTY, acts, |acts|, "b", KEY)
  {
    hide Legal, Exec, By, Run.Real, Planned, At, Quiet, FilledBefore, Init, Rebooted, Located;
    var r := FirstLife(false);
    r := SecondLife(r, Good([1]), "");
    r, st := Served(r, Good([1]), "");
    r := Reboot(r, st);
    r := Address(r, st);
    r, st := Adopt(r, st);
    acts, seen := r.acts, r.seen;
    EndOf(r);
    FilledIff(EMPTY, acts, |acts|, "b", KEY);
  }

  /** A deletion whose one attempt to store the overlay fails, and takes the good snapshot of an earlier claim
      with it: the last reconcile begins at step i. */
  lemma LostSnapshotRun() returns (acts: seq<Act>, seen: seq<Seen>, i: nat)
    ensures Genuine(acts, seen) && |seen| > 0 && i <= |acts|
    ensures var s := seen[|seen| - 1];
            && OverlayAtStake(true, s) && s.extractions == [FailedTorn(true)] && s.claim.value.key == KEY
            && OwnActs(acts, i, |acts|, ReconcilePlan("c", true, s).acts)
    ensures SnapshotOf(At(EMPTY, acts, i), KEY) == Some(Good([1]))
    ensures SnapshotOf(At(EMPTY, acts, |acts|), KEY) == Some(Torn(true))
  {
    hide Legal, Exec, By, Run.Real, At, Quiet, Init, Waiting, ReconcilePlan;
    var r := FirstLife(false);
    r := Populate(r, "q", map[KEY := Good([1])], {"p"});
    var r0;
    r0, r := Tear(r, "q", map[KEY := Good([1])], {"p", "q"}, PENDING.(source := Cold, instance := Some("q")));
    acts, seen, i := r.acts, r.seen, |r0.acts|;
    EndOf(r);
    WasAt(r0, r);
    assert r.seen[..|r.seen| - 1] == r0.seen;
  }

  /** The first part of a run leads to the same world and holds the same acts as on its own. */
  lemma WasAt(r0: Run, r: Run)
    requires Setting(r0) && Setting(r) && r0.acts <= r.acts
    ensures Legal(EMPTY, r.acts) && At(EMPTY, r.acts, |r0.acts|) == r0.world
    ensures By(r.acts[..|r0.acts|], Claims) == Planned(r0.seen)
    ensures By(r.acts[..|r.acts|], Claims) == Planned(r.seen)
  {
    assert r.acts[..|r0.acts|] == r0.acts && r.acts[..|r.acts|] == r.acts;
    assert Planned(r0.seen) + [] == Planned(r0.seen) && Planned(r.seen) + [] == Planned(r.seen);
  }
}
