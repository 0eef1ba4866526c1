/** The cluster as a step system.

    A World is what the API server and the snapshot store hold.  An Act is one
    successful call that changes it, taken by the claim controller (C...), the
    pool controller (P...) or anybody else: kubelet, tenants, API clients, the
    garbage collector, the clock (E...).  Enabled says when an actor may take an
    act; the classes ClaimReconciler and PoolReconciler are proved to take no
    other, whatever the rest of the cluster does between two of their calls. */
module Cluster {
  import opened Wrappers

  // ---- Objects ----------------------------------------------------------

  /** The boilerhouse.dev/pool-status label. */
  datatype PoolStatus = NoPool | Warming | Ready | Acquired

  datatype PodPhase = PodPending | PodRunning | PodSucceeded | PodFailed | PodUnknown

  /** A tenant and one of its workloads: what a claim asks for and what the
      labels of a tenant pod carry. */
  datatype Key = Key(tenant: string, workload: string)

  datatype Pod = Pod(workload: string, tenant: Option<string>, status: PoolStatus,
                     phase: PodPhase, containersReady: bool, ip: string, port: int, rv: nat)

  /** The idle action in a workload spec; Unset means hibernate. */
  datatype Action = Unset | Hibernate | Destroy

  datatype Workload = Workload(ready: bool, overlay: bool, timeout: int, action: Action,
                               apiDisabled: bool, port: int)

  datatype Phase = NoPhase | Pending | Active | Releasing | Released | ReleaseFailed | Error

  datatype Source = NoSource | Existing | Cold | FromPool | FromPoolData

  datatype Detail = NoDetail | WorkloadNotFound | WorkloadNotReady | PodGone
                  | IdleTimeout(action: Action) | ExtractFailed

  datatype Endpoint = Endpoint(host: string, port: int)

  datatype Status = Status(phase: Phase, instance: Option<string>, endpoint: Option<Endpoint>,
                           source: Source, claimedAt: Option<int>, detail: Detail)

  const NEW_STATUS := Status(NoPhase, None, None, NoSource, None, NoDetail)

  datatype Claim = Claim(key: Key, uid: nat, finalizer: bool, deleting: bool,
                         lastActivity: Option<int>, status: Status, rv: nat)

  /** The Secret behind a claim's API token; owner is the uid of the claim it was made for. */
  datatype Secret = Secret(token: nat, owner: nat)

  /** A stored archive with its checksum: either the checksum matches, or the
      pair is torn (possibly with an empty archive file). */
  datatype Snapshot = Good(archive: Bytes) | Torn(empty: bool)

  /** What InjectSnapshot last reported success for, and for whom. */
  datatype Injection = Injection(key: Key, snapshot: Snapshot)

  datatype PoolSpec = PoolSpec(size: int, cap: int)

  /** What a Get of the claim's workload answered. */
  datatype Read = Found(wl: Workload) | Missing | Unreadable

  /** The claim reconcile in progress: the claim as it was read, the workload
      reads so far, and the overlays stored so far. */
  datatype Turn = Turn(name: string, claim: Claim, views: seq<Read>, saved: map<string, Bytes>)

  datatype World = World(
    pods: map<string, Pod>,
    disks: map<string, Bytes>,          // the archive of each pod's overlay dirs
    claims: map<string, Claim>,
    secrets: map<string, Secret>,       // by claim name
    snaps: map<Key, Snapshot>,
    workloads: map<string, Workload>,
    pools: map<string, PoolSpec>,       // by workload name
    snapshots: bool,                    // is a Snapshotter configured?
    turn: Option<Turn>,
    used: set<string>,                  // every pod name ever given out
    injected: map<string, Injection>,   // by pod name
    minted: nat,                        // tokens generated so far
    now: int,
    rv: nat)

  // ---- Acts ---------------------------------------------------------------

  /** How an ExtractAndStore ended, and what a failed one left in the store. */
  datatype Extraction = Stored | FailedClean | FailedAfterStore | FailedTorn(empty: bool)

  datatype Reason = Terminal | Reap

  datatype Act =
    // claim controller
    | CBegin(name: string)
    | CRead(read: Read)
    | CFinalize
    | CStatus(status: Status)
    | CUnfinalize
    | CAcquire(pod: string)
    | CCreate(pod: string)
    | CDelete(pod: string, reason: Reason)
    | CMint
    | CRevoke
    | CExtract(pod: string, extraction: Extraction)
    | CInject(pod: string, ok: bool, junk: Bytes)
    | CDropSnap(removed: bool)
    // pool controller
    | PCreate(pod: string, workload: string, port: int)
    | PReady(pod: string)
    // everybody else
    | EKubelet(pod: string, phase: PodPhase, containersReady: bool, ip: string)
    | ERemovePod(pod: string)
    | EWrite(pod: string, bytes: Bytes)
    | ECreateClaim(name: string, key: Key, lastActivity: Option<int>)
    | ETouch(name: string, at: Option<int>)
    | EMarkDeleted(name: string)
    | EStripFinalizer(name: string)
    | ECollect(name: string)
    | EWorkload(workload: string, spec: Option<Workload>)
    | ETick(elapsed: nat)

  datatype Actor = Claims | Pools | Others

  function ActorOf(a: Act): Actor {
    match a
    case CBegin(_) | CRead(_) | CFinalize | CStatus(_) | CUnfinalize | CAcquire(_) | CCreate(_) => Claims
    case CDelete(_, _) | CMint | CRevoke | CExtract(_, _) | CInject(_, _, _) | CDropSnap(_) => Claims
    case PCreate(_, _, _) | PReady(_) => Pools
    case _ => Others
  }

  // ---- Reading a world ------------------------------------------------------

  predicate Bound(p: Pod, k: Key) {
    p.tenant == Some(k.tenant) && p.workload == k.workload
  }

  /** The pods a List by tenant and workload label returns. */
  function TenantPods(w: World, k: Key): set<string> {
    set p | p in w.pods && Bound(w.pods[p], k)
  }

  /** The pods a List by workload and pool-status=ready returns. */
  function ReadyPods(w: World, wl: string): set<string> {
    set p | p in w.pods && w.pods[p].workload == wl && w.pods[p].status == Ready
  }

  function WarmingPods(w: World, wl: string): set<string> {
    set p | p in w.pods && w.pods[p].workload == wl && w.pods[p].status == Warming
  }

  function PoolPods(w: World, wl: string): set<string> {
    set p | p in w.pods && w.pods[p].workload == wl && w.pods[p].status in {Warming, Ready}
  }

  predicate Terminated(p: Pod) { p.phase == PodFailed || p.phase == PodSucceeded }

  /** The name was given out, and if the pod still exists its labels carry the key. */
  predicate Mine(w: World, p: string, k: Key) {
    p in w.used && (p in w.pods ==> Bound(w.pods[p], k))
  }

  predicate InjectedFor(w: World, p: string, k: Key) { p in w.injected && w.injected[p].key == k }

  function Resolve(a: Action): Action { if a == Unset then Hibernate else a }

  /** The action a reconcile works with: that of the first workload read, hibernate if it failed. */
  function TurnAction(t: Turn): Action {
    if |t.views| > 0 && t.views[0].Found? then Resolve(t.views[0].wl.action) else Hibernate
  }

  /** The reconcile has a readable hibernate workload with overlay dirs in hand. */
  predicate MustSave(w: World) {
    && w.turn.Some?
    && var t := w.turn.value;
    && w.snapshots
    && |t.views| > 0
    && TurnAction(t) == Hibernate
    && t.views[|t.views| - 1].Found?
    && t.views[|t.views| - 1].wl.overlay
  }

  /** The reference time of idle monitoring: the last activity, else the claim time. */
  function LastSeen(c: Claim): Option<int> {
    if c.lastActivity.Some? then c.lastActivity else c.status.claimedAt
  }

  /** Idle monitoring is configured and the timeout has passed. */
  predicate IdleDue(w: World) {
    && w.turn.Some?
    && var t := w.turn.value;
    && |t.views| > 0 && t.views[0].Found? && t.views[0].wl.timeout > 0
    && LastSeen(t.claim).Some?
    && w.now - LastSeen(t.claim).value >= t.views[0].wl.timeout
  }

  predicate SawReady(t: Turn) {
    |t.views| > 0 && t.views[0].Found? && t.views[0].wl.ready
  }

  /** Phases that Reconcile sends to handleNewClaim. */
  predicate Fresh(p: Phase) { p !in {Active, Released, ReleaseFailed} }

  /** The claim still is what the reconcile read: the resourceVersion check of an Update. */
  predicate Unmoved(w: World) {
    && w.turn.Some?
    && var t := w.turn.value;
    && t.name in w.claims && w.claims[t.name] == t.claim
  }

  // ---- Which acts are allowed ------------------------------------------------

  predicate ToPending(t: Turn, st: Status) {
    && t.claim.status.phase in {NoPhase, Error, Releasing}
    && st == t.claim.status.(phase := Pending)
  }

  predicate ToError(t: Turn, st: Status) {
    && t.claim.status.phase == Pending
    && |t.views| == 1
    && ((t.views[0] == Missing && st == t.claim.status.(phase := Error, detail := WorkloadNotFound))
        || (t.views[0].Found? && !t.views[0].wl.ready
            && st == t.claim.status.(phase := Error, detail := WorkloadNotReady)))
  }

  /** activateClaim without an IP: remember the pod and how it was obtained. */
  predicate ToStash(w: World, t: Turn, st: Status) {
    && t.claim.status.phase == Pending
    && SawReady(t)
    && st.instance.Some? && Mine(w, st.instance.value, t.claim.key)
    && st.source != NoSource
    && st == t.claim.status.(source := st.source, instance := st.instance)
    && (st.source == FromPoolData ==> InjectedFor(w, st.instance.value, t.claim.key))
  }

  predicate ToActive(w: World, t: Turn, st: Status) {
    && t.claim.status.phase == Pending
    && SawReady(t)
    && st.instance.Some? && Mine(w, st.instance.value, t.claim.key)
    && st.endpoint.Some? && st.endpoint.value.host != ""
    && st.claimedAt.Some? && st.claimedAt.value <= w.now
    && st.source != NoSource
    && st == Status(Active, st.instance, st.endpoint, st.source, st.claimedAt, NoDetail)
    && (st.source == FromPoolData ==>
          InjectedFor(w, st.instance.value, t.claim.key) || t.claim.status.source == FromPoolData)
  }

  predicate ToGone(w: World, t: Turn, st: Status) {
    && t.claim.status.phase == Active
    && t.claim.status.instance.Some?
    && t.claim.status.instance.value !in w.pods
    && st == t.claim.status.(phase := Released, detail := PodGone, endpoint := None)
  }

  predicate ToReleased(w: World, t: Turn, st: Status) {
    && t.claim.status.phase == Active
    && IdleDue(w)
    && TenantPods(w, t.claim.key) == {}
    && t.name !in w.secrets
    && st == t.claim.status.(phase := Released, detail := IdleTimeout(TurnAction(t)))
  }

  predicate ToReleaseFailed(w: World, t: Turn, st: Status) {
    && t.claim.status.phase == Active
    && IdleDue(w)
    && MustSave(w)
    && TenantPods(w, t.claim.key) !! t.saved.Keys
    && st == t.claim.status.(phase := ReleaseFailed, detail := ExtractFailed)
  }

  /** The status a reconcile may write, leaving aside whether the claim has moved on. */
  predicate MayWrite(w: World, st: Status) {
    && w.turn.Some?
    && var t := w.turn.value;
    && !t.claim.deleting && t.claim.finalizer
    && (ToPending(t, st) || ToError(t, st) || ToStash(w, t, st) || ToActive(w, t, st)
        || ToGone(w, t, st) || ToReleased(w, t, st) || ToReleaseFailed(w, t, st))
  }

  /** The reconcile is on a path that ends a tenancy: deletion, or idle release. */
  predicate Ending(w: World) {
    && w.turn.Some?
    && var c := w.turn.value.claim;
    && ((c.deleting && c.finalizer)
        || (!c.deleting && c.status.phase == Active && IdleDue(w)))
  }

  /** The reconcile is on the path that begins one. */
  predicate Beginning(w: World) {
    && w.turn.Some?
    && var t := w.turn.value;
    && !t.claim.deleting && t.claim.finalizer && t.claim.status.phase == Pending && SawReady(t)
  }

  predicate Enabled(w: World, a: Act) {
    match a
    case CBegin(c) => c in w.claims
    case CRead(r) =>
      && w.turn.Some?
      && var wl := w.turn.value.claim.key.workload;
      && (r.Found? ==> wl in w.workloads && w.workloads[wl] == r.wl)
      && (r.Missing? ==> wl !in w.workloads)
    case CFinalize =>
      Unmoved(w) && var c := w.turn.value.claim;
      !c.deleting && !c.finalizer && Fresh(c.status.phase)
    case CStatus(st) => Unmoved(w) && MayWrite(w, st)
    case CUnfinalize =>
      Unmoved(w) && var t := w.turn.value;
      t.claim.deleting && t.claim.finalizer && TenantPods(w, t.claim.key) == {} && t.name !in w.secrets
    case CAcquire(p) =>
      Beginning(w) && var k := w.turn.value.claim.key;
      && p in w.pods && w.pods[p].status == Ready && w.pods[p].workload == k.workload
      && TenantPods(w, k) == {}
    case CCreate(p) =>
      Beginning(w) && p !in w.used && TenantPods(w, w.turn.value.claim.key) == {}
    case CDelete(p, reason) =>
      && w.turn.Some? && p in w.pods && Bound(w.pods[p], w.turn.value.claim.key)
      && (reason == Terminal ==> Beginning(w) && Terminated(w.pods[p]))
      && (reason == Reap ==> Ending(w) && (MustSave(w) ==> p in w.turn.value.saved))
    case CMint => Beginning(w) && w.turn.value.name !in w.secrets
    case CRevoke => Ending(w) && w.turn.value.name in w.secrets && TenantPods(w, w.turn.value.claim.key) == {}
    case CExtract(p, x) =>
      && Ending(w) && MustSave(w) && Mine(w, p, w.turn.value.claim.key) && p !in w.turn.value.saved
      && (p !in w.pods ==> x == FailedClean)
    case CInject(p, ok, _) =>
      && Beginning(w) && Mine(w, p, w.turn.value.claim.key)
      && p !in w.injected && (p in w.pods ==> w.pods[p].status == Acquired)
      && (ok ==> p in w.pods && w.turn.value.claim.key in w.snaps
                 && w.snaps[w.turn.value.claim.key] != Torn(false))
    case CDropSnap(_) => Ending(w) && TurnAction(w.turn.value) == Destroy
    case PCreate(p, wl, _) =>
      && p !in w.used && wl in w.pools
      && |PoolPods(w, wl)| < w.pools[wl].size && |WarmingPods(w, wl)| < w.pools[wl].cap
    case PReady(p) =>
      p in w.pods && w.pods[p].status == Warming && w.pods[p].phase == PodRunning && w.pods[p].containersReady
    case EKubelet(p, phase, _, _) =>
      p in w.pods && (Terminated(w.pods[p]) ==> phase == w.pods[p].phase)
    case ERemovePod(p) => p in w.pods
    case EWrite(p, _) => p in w.pods
    case ECreateClaim(c, _, _) => c !in w.claims
    case ETouch(c, _) => c in w.claims
    case EMarkDeleted(c) => c in w.claims
    case EStripFinalizer(c) => c in w.claims && w.claims[c].status.phase == Released
    case ECollect(c) => c in w.secrets && !(c in w.claims && w.claims[c].uid == w.secrets[c].owner)
    case EWorkload(_, _) => true
    case ETick(_) => true
  }

  // ---- What the acts do, part by part --------------------------------------------

  /** A change of one entry of a map of objects. */
  datatype Edit<T> = Same | Put(name: string, value: T) | Drop(name: string)

  function Edited<T>(m: map<string, T>, e: Edit<T>): map<string, T> {
    match e
    case Same => m
    case Put(n, v) => m[n := v]
    case Drop(n) => m - {n}
  }

  function PodEdit(w: World, a: Act): Edit<Pod>
    requires Enabled(w, a)
  {
    match a
    case CAcquire(p) =>
      Put(p, w.pods[p].(tenant := Some(w.turn.value.claim.key.tenant), status := Acquired, rv := w.rv + 1))
    case CCreate(p) =>
      var k := w.turn.value.claim.key;
      Put(p, Pod(k.workload, Some(k.tenant), NoPool, PodPending, false, "", w.turn.value.views[0].wl.port, w.rv + 1))
    case CDelete(p, _) => Drop(p)
    case PCreate(p, wl, port) => Put(p, Pod(wl, None, Warming, PodPending, false, "", port, w.rv + 1))
    case PReady(p) => Put(p, w.pods[p].(status := Ready, rv := w.rv + 1))
    case EKubelet(p, phase, ready, ip) =>
      Put(p, w.pods[p].(phase := phase, containersReady := ready, ip := ip, rv := w.rv + 1))
    case ERemovePod(p) => Drop(p)
    case _ => Same
  }

  function ClaimEdit(w: World, a: Act): Edit<Claim>
    requires Enabled(w, a)
  {
    match a
    case CFinalize => Put(w.turn.value.name, w.turn.value.claim.(finalizer := true, rv := w.rv + 1))
    case CStatus(st) => Put(w.turn.value.name, w.turn.value.claim.(status := st, rv := w.rv + 1))
    case CUnfinalize => Drop(w.turn.value.name)
    case ECreateClaim(c, k, seen) => Put(c, Claim(k, w.rv + 1, false, false, seen, NEW_STATUS, w.rv + 1))
    case ETouch(c, at) => Put(c, w.claims[c].(lastActivity := at, rv := w.rv + 1))
    case EMarkDeleted(c) =>
      if w.claims[c].finalizer then Put(c, w.claims[c].(deleting := true, rv := w.rv + 1)) else Drop(c)
    case EStripFinalizer(c) =>
      if w.claims[c].deleting then Drop(c) else Put(c, w.claims[c].(finalizer := false, rv := w.rv + 1))
    case _ => Same
  }

  function SecretEdit(w: World, a: Act): Edit<Secret>
    requires Enabled(w, a)
  {
    match a
    case CMint => Put(w.turn.value.name, Secret(w.minted, w.turn.value.claim.uid))
    case CRevoke => Drop(w.turn.value.name)
    case ECollect(c) => Drop(c)
    case _ => Same
  }

  function UsedAfter(w: World, a: Act): set<string> {
    match a
    case CCreate(p) => w.used + {p}
    case PCreate(p, _, _) => w.used + {p}
    case _ => w.used
  }

  function DisksAfter(w: World, a: Act): map<string, Bytes>
    requires Enabled(w, a)
  {
    match a
    case CCreate(p) => w.disks[p := []]
    case PCreate(p, _, _) => w.disks[p := []]
    case CDelete(p, _) => w.disks - {p}
    case ERemovePod(p) => w.disks - {p}
    case EWrite(p, bytes) => w.disks[p := bytes]
    case CInject(p, ok, junk) =>
      if p !in w.disks then w.disks
      else if !ok then w.disks[p := junk]
      else if w.snaps[w.turn.value.claim.key].Good? then w.disks[p := w.snaps[w.turn.value.claim.key].archive]
      else w.disks
    case _ => w.disks
  }

  /** The archive ExtractAndStore reads from a pod. */
  function ArchiveOf(w: World, p: string): Bytes { if p in w.disks then w.disks[p] else [] }

  /** What one ExtractAndStore leaves in the store: an empty archive is never written. */
  function SnapsAfter(w: World, a: Act): map<Key, Snapshot>
    requires Enabled(w, a)
  {
    match a
    case CExtract(p, Stored) => Kept(w.snaps, w.turn.value.claim.key, ArchiveOf(w, p))
    case CExtract(p, FailedAfterStore) => Kept(w.snaps, w.turn.value.claim.key, ArchiveOf(w, p))
    case CExtract(_, FailedTorn(empty)) => w.snaps[w.turn.value.claim.key := Torn(empty)]
    case CDropSnap(true) => w.snaps - {w.turn.value.claim.key}
    case _ => w.snaps
  }

  function Kept(snaps: map<Key, Snapshot>, k: Key, archive: Bytes): map<Key, Snapshot> {
    if archive == [] then snaps else snaps[k := Good(archive)]
  }

  function InjectedAfter(w: World, a: Act): map<string, Injection>
    requires Enabled(w, a)
  {
    match a
    case CInject(p, true, _) =>
      w.injected[p := Injection(w.turn.value.claim.key, w.snaps[w.turn.value.claim.key])]
    case _ => w.injected
  }

  function TurnAfter(w: World, a: Act): Option<Turn>
    requires Enabled(w, a)
  {
    match a
    case CBegin(c) => Some(Turn(c, w.claims[c], [], map[]))
    case CRead(r) => Some(w.turn.value.(views := w.turn.value.views + [r]))
    case CExtract(p, Stored) => Some(w.turn.value.(saved := w.turn.value.saved[p := ArchiveOf(w, p)]))
    case _ => w.turn
  }

  function WorkloadsAfter(w: World, a: Act): map<string, Workload> {
    match a
    case EWorkload(n, Some(spec)) => w.workloads[n := spec]
    case EWorkload(n, None) => w.workloads - {n}
    case _ => w.workloads
  }

  function Apply(w: World, a: Act): World
    requires Enabled(w, a)
  {
    World(Edited(w.pods, PodEdit(w, a)), DisksAfter(w, a), Edited(w.claims, ClaimEdit(w, a)),
          Edited(w.secrets, SecretEdit(w, a)), SnapsAfter(w, a), WorkloadsAfter(w, a), w.pools, w.snapshots,
          TurnAfter(w, a), UsedAfter(w, a), InjectedAfter(w, a),
          if a.CMint? then w.minted + 1 else w.minted,
          if a.ETick? then w.now + a.elapsed else w.now,
          w.rv + 1)
  }

  // ---- Runs --------------------------------------------------------------------

  /** Every act of the run was allowed in the world it was taken in. */
  predicate Legal(init: World, acts: seq<Act>)
    decreases |acts|, 0
  {
    acts == [] ||
    var before := acts[..|acts| - 1];
    Legal(init, before) && Enabled(Exec(init, before), acts[|acts| - 1])
  }

  /** The world a run leads to. */
  function Exec(init: World, acts: seq<Act>): World
    requires Legal(init, acts)
    decreases |acts|, 1
  {
    if acts == [] then init
    else Apply(Exec(init, acts[..|acts| - 1]), acts[|acts| - 1])
  }

  /** A cluster before the operator has done anything. */
  predicate Init(w: World) {
    && w.pods == map[] && w.disks == map[] && w.claims == map[] && w.secrets == map[] && w.snaps == map[]
    && w.turn == None && w.used == {} && w.injected == map[]
    && (forall wl :: wl in w.pools ==> w.pools[wl].size >= 0 && w.pools[wl].cap >= 1)
  }

  lemma LegalStep(init: World, acts: seq<Act>, a: Act)
    requires Legal(init, acts) && Enabled(Exec(init, acts), a)
    ensures Legal(init, acts + [a])
    ensures Exec(init, acts + [a]) == Apply(Exec(init, acts), a)
  {
    assert (acts + [a])[..|acts + [a]| - 1] == acts;
  }

  lemma {:induction false} LegalPrefix(init: World, acts: seq<Act>, n: nat)
    requires Legal(init, acts) && n <= |acts|
    ensures Legal(init, acts[..n])
    decreases |acts|
  {
    if n < |acts| {
      LegalPrefix(init, acts[..|acts| - 1], n);
      assert acts[..|acts| - 1][..n] == acts[..n];
    } else {
      assert acts[..n] == acts;
    }
  }

  /** One step of a run, by index. */
  lemma StepAt(init: World, acts: seq<Act>, i: nat)
    requires Legal(init, acts) && i < |acts|
    ensures Legal(init, acts[..i]) && Legal(init, acts[..i + 1])
    ensures Enabled(Exec(init, acts[..i]), acts[i])
    ensures Exec(init, acts[..i + 1]) == Apply(Exec(init, acts[..i]), acts[i])
  {
    LegalPrefix(init, acts, i);
    LegalPrefix(init, acts, i + 1);
    assert acts[..i + 1][..|acts[..i + 1]| - 1] == acts[..i];
  }

  lemma {:induction false} LegalSplit(w: World, a: seq<Act>, b: seq<Act>)
    requires Legal(w, a + b)
    ensures Legal(w, a) && Legal(Exec(w, a), b) && Exec(w, a + b) == Exec(Exec(w, a), b)
    decreases |b|
  {
    hide Enabled, Apply;
    if b == [] {
      assert a + b == a;
    } else {
      assert (a + b)[..|a + b| - 1] == a + b[..|b| - 1];
      LegalSplit(w, a, b[..|b| - 1]);
    }
  }
}
