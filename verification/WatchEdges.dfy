/** The dashboard's event streams: watchPods and watchClaims remember one label or phase per object and
    report its rising edges. */
module WatchEdges {
  // ---- Watch histories ------------------------------------------------------------

  /** One watch event as far as edges are concerned: an object added or modified with some state, an object
      deleted, or an event that carries no such object. */
  datatype Change = Seen(name: string, state: string) | Gone(name: string) | Noise

  predicate About(c: Change, n: string) { !c.Noise? && c.name == n }

  /** At this point of the history the object exists and was last seen in this state. */
  ghost predicate InState(h: seq<Change>, i: nat, n: string, s: string)
    requires i <= |h|
  {
    exists j :: 0 <= j < i && h[j] == Seen(n, s) && forall k :: j < k < i ==> !About(h[k], n)
  }

  /** Event i brings its object to the state from another one, or from not existing. */
  ghost predicate Rising(h: seq<Change>, i: nat, s: string)
    requires i < |h|
  {
    h[i].Seen? && h[i].state == s && !InState(h, i, h[i].name, s)
  }

  /** The map the loops keep: the last state of every object that exists. */
  ghost predicate Tracks(m: map<string, string>, h: seq<Change>, i: nat)
    requires i <= |h|
  {
    forall n, s {:trigger InState(h, i, n, s)} :: (n in m && m[n] == s) <==> InState(h, i, n, s)
  }

  /** prev := m[name], with the empty string for a missing key. */
  function Previous(m: map<string, string>, n: string): string {
    if n in m then m[n] else ""
  }

  function Noted(m: map<string, string>, c: Change): map<string, string> {
    match c
    case Seen(n, s) => m[n := s]
    case Gone(n) => m - {n}
    case Noise => m
  }

  lemma NotedTracks(m: map<string, string>, h: seq<Change>, i: nat)
    requires i < |h| && Tracks(m, h, i)
    ensures Tracks(Noted(m, h[i]), h, i + 1)
  {
    var m', next := Noted(m, h[i]), i + 1;
    forall n, s
      ensures (n in m' && m'[n] == s) <==> InState(h, next, n, s)
    {
      if About(h[i], n) {
        if h[i] == Seen(n, s) {
          assert InState(h, i + 1, n, s);
        }
      } else {
        if InState(h, i, n, s) {
          var j :| 0 <= j < i && h[j] == Seen(n, s) && forall k :: j < k < i ==> !About(h[k], n);
          assert forall k :: j < k < i + 1 ==> !About(h[k], n);
        }
        if InState(h, i + 1, n, s) {
          var j :| 0 <= j < i + 1 && h[j] == Seen(n, s) && forall k :: j < k < i + 1 ==> !About(h[k], n);
          assert j < i;
          assert forall k :: j < k < i ==> !About(h[k], n);
        }
      }
    }
  }

  /** The test the loops make is the rising edge (for any state that has a name). */
  lemma EdgeTest(m: map<string, string>, h: seq<Change>, i: nat, s: string)
    requires i < |h| && Tracks(m, h, i) && h[i].Seen? && s != ""
    ensures h[i].state == s && Previous(m, h[i].name) != s <==> Rising(h, i, s)
  {
    assert (h[i].name in m && m[h[i].name] == s) <==> InState(h, i, h[i].name, s);
  }

  // ---- watchPods --------------------------------------------------------------------

  datatype PodView = PodView(name: string, phase: string, workload: string, tenant: string, poolStatus: string)

  datatype PodEvent = PodUpserted(pod: PodView) | PodDeleted(pod: PodView) | PodOther

  datatype Message =
    | InstanceState(name: string, phase: string, workload: string, tenant: string)
    | PoolInstanceReady(name: string, workload: string)
    | TenantClaimed(name: string, tenant: string, workload: string, source: string)
    | TenantReleased(name: string, tenant: string)

  const READY := "ready"
  const ACTIVE := "Active"
  const RELEASED := "Released"

  function PodChange(e: PodEvent): Change {
    match e
    case PodUpserted(p) => Seen(p.name, p.poolStatus)
    case PodDeleted(p) => Gone(p.name)
    case PodOther => Noise
  }

  function PodChanges(h: seq<PodEvent>): seq<Change> {
    seq(|h|, i requires 0 <= i < |h| => PodChange(h[i]))
  }

  /** What one pod event is worth, read off the whole history before it. */
  ghost function PodMessages(h: seq<PodEvent>, i: nat): seq<Message>
    requires i < |h|
  {
    match h[i]
    case PodUpserted(p) =>
      [InstanceState(p.name, p.phase, p.workload, p.tenant)]
      + if Rising(PodChanges(h), i, READY) then [PoolInstanceReady(p.name, p.workload)] else []
    case PodDeleted(p) => [InstanceState(p.name, "Deleted", p.workload, p.tenant)]
    case PodOther => []
  }

  ghost function AllPodMessages(h: seq<PodEvent>, n: nat): seq<Message>
    requires n <= |h|
  {
    if n == 0 then [] else AllPodMessages(h, n - 1) + PodMessages(h, n - 1)
  }

  /** watchPods: the messages are those of the declarative reading, in order. */
  method WatchPods(h: seq<PodEvent>) returns (events: seq<Message>)
    ensures events == AllPodMessages(h, |h|)
  {
    events := [];
    var poolStatus: map<string, string> := map[];
    ghost var changes := PodChanges(h);
    for i := 0 to |h|
      invariant Tracks(poolStatus, changes, i)
      invariant events == AllPodMessages(h, i)
    {
      hide Tracks, Rising;
      NotedTracks(poolStatus, changes, i);
      match h[i] {
        case PodUpserted(pod) =>
          events := events + [InstanceState(pod.name, pod.phase, pod.workload, pod.tenant)];
          EdgeTest(poolStatus, changes, i, READY);
          if pod.poolStatus == READY && Previous(poolStatus, pod.name) != READY {
            events := events + [PoolInstanceReady(pod.name, pod.workload)];
          }
          poolStatus := poolStatus[pod.name := pod.poolStatus];
        case PodDeleted(pod) =>
          events := events + [InstanceState(pod.name, "Deleted", pod.workload, pod.tenant)];
          poolStatus := poolStatus - {pod.name};
        case PodOther =>
      }
    }
  }

  // ---- watchClaims ------------------------------------------------------------------

  datatype ClaimView = ClaimView(name: string, phase: string, tenant: string, workload: string, source: string)

  datatype ClaimEvent = ClaimUpserted(claim: ClaimView) | ClaimDeleted(claim: ClaimView) | ClaimOther

  function ClaimChange(e: ClaimEvent): Change {
    match e
    case ClaimUpserted(c) => Seen(c.name, c.phase)
    case ClaimDeleted(c) => Gone(c.name)
    case ClaimOther => Noise
  }

  function ClaimChanges(h: seq<ClaimEvent>): seq<Change> {
    seq(|h|, i requires 0 <= i < |h| => ClaimChange(h[i]))
  }

  ghost function ClaimMessages(h: seq<ClaimEvent>, i: nat): seq<Message>
    requires i < |h|
  {
    match h[i]
    case ClaimUpserted(c) =>
      if Rising(ClaimChanges(h), i, ACTIVE) then [TenantClaimed(c.name, c.tenant, c.workload, c.source)]
      else if Rising(ClaimChanges(h), i, RELEASED) then [TenantReleased(c.name, c.tenant)]
      else []
    case ClaimDeleted(c) => [TenantReleased(c.name, c.tenant)]
    case ClaimOther => []
  }

  ghost function AllClaimMessages(h: seq<ClaimEvent>, n: nat): seq<Message>
    requires n <= |h|
  {
    if n == 0 then [] else AllClaimMessages(h, n - 1) + ClaimMessages(h, n - 1)
  }

  method WatchClaims(h: seq<ClaimEvent>) returns (events: seq<Message>)
    ensures events == AllClaimMessages(h, |h|)
  {
    events := [];
    var claimPhase: map<string, string> := map[];
    ghost var changes := ClaimChanges(h);
    for i := 0 to |h|
      invariant Tracks(claimPhase, changes, i)
      invariant events == AllClaimMessages(h, i)
    {
      hide Tracks, InState;
      NotedTracks(claimPhase, changes, i);
      match h[i] {
        case ClaimUpserted(claim) =>
          var prev := Previous(claimPhase, claim.name);
          EdgeTest(claimPhase, changes, i, ACTIVE);
          EdgeTest(claimPhase, changes, i, RELEASED);
          if claim.phase == ACTIVE && prev != ACTIVE {
            events := events + [TenantClaimed(claim.name, claim.tenant, claim.workload, claim.source)];
          }
          if claim.phase == RELEASED && prev != RELEASED {
            events := events + [TenantReleased(claim.name, claim.tenant)];
          }
          claimPhase := claimPhase[claim.name := claim.phase];
        case ClaimDeleted(claim) =>
          events := events + [TenantReleased(claim.name, claim.tenant)];
          claimPhase := claimPhase - {claim.name};
        case ClaimOther =>
      }
    }
  }

  // ---- The messages, field by field ------------------------------------------------------

  /** Before event i the pod exists, and its last event gave it this pool status. */
  ghost predicate PodWas(h: seq<PodEvent>, i: nat, name: string, status: string)
    requires i <= |h|
  {
    exists j :: && 0 <= j < i && h[j].PodUpserted? && h[j].pod.name == name && h[j].pod.poolStatus == status
                && forall k :: j < k < i ==> h[k].PodOther? || h[k].pod.name != name
  }

  ghost predicate ClaimWas(h: seq<ClaimEvent>, i: nat, name: string, phase: string)
    requires i <= |h|
  {
    exists j :: && 0 <= j < i && h[j].ClaimUpserted? && h[j].claim.name == name && h[j].claim.phase == phase
                && forall k :: j < k < i ==> h[k].ClaimOther? || h[k].claim.name != name
  }

  lemma PodWasIs(h: seq<PodEvent>, i: nat, name: string, status: string)
    requires i <= |h|
    ensures PodWas(h, i, name, status) <==> InState(PodChanges(h), i, name, status)
  {
    var c := PodChanges(h);
    if PodWas(h, i, name, status) {
      var j :| && 0 <= j < i && h[j].PodUpserted? && h[j].pod.name == name && h[j].pod.poolStatus == status
               && forall k :: j < k < i ==> h[k].PodOther? || h[k].pod.name != name;
      assert c[j] == Seen(name, status) && forall k :: j < k < i ==> !About(c[k], name);
    }
    if InState(c, i, name, status) {
      var j :| 0 <= j < i && c[j] == Seen(name, status) && forall k :: j < k < i ==> !About(c[k], name);
      assert forall k :: j < k < i ==> c[k] == PodChange(h[k]);
    }
  }

  lemma ClaimWasIs(h: seq<ClaimEvent>, i: nat, name: string, phase: string)
    requires i <= |h|
    ensures ClaimWas(h, i, name, phase) <==> InState(ClaimChanges(h), i, name, phase)
  {
    var c := ClaimChanges(h);
    if ClaimWas(h, i, name, phase) {
      var j :| && 0 <= j < i && h[j].ClaimUpserted? && h[j].claim.name == name && h[j].claim.phase == phase
               && forall k :: j < k < i ==> h[k].ClaimOther? || h[k].claim.name != name;
      assert c[j] == Seen(name, phase) && forall k :: j < k < i ==> !About(c[k], name);
    }
    if InState(c, i, name, phase) {
      var j :| 0 <= j < i && c[j] == Seen(name, phase) && forall k :: j < k < i ==> !About(c[k], name);
      assert forall k :: j < k < i ==> c[k] == ClaimChange(h[k]);
    }
  }

  /** The messages for one pod event carry the fields of its pod: its state each time, and that it is ready exactly
      if the event makes it so. */
  lemma PodMessageFields(h: seq<PodEvent>, i: nat)
    requires i < |h|
    ensures match h[i]
            case PodUpserted(p) =>
              PodMessages(h, i)
              == if p.poolStatus == "ready" && !PodWas(h, i, p.name, "ready") then
                   [InstanceState(p.name, p.phase, p.workload, p.tenant), PoolInstanceReady(p.name, p.workload)]
                 else [InstanceState(p.name, p.phase, p.workload, p.tenant)]
            case PodDeleted(p) => PodMessages(h, i) == [InstanceState(p.name, "Deleted", p.workload, p.tenant)]
            case PodOther => PodMessages(h, i) == []
  {
    hide PodWas, InState;
    if h[i].PodUpserted? {
      PodWasIs(h, i, h[i].pod.name, READY);
    }
  }

  /** The same for claims: claimed and released messages carry the fields of the claim in the event. */
  lemma ClaimMessageFields(h: seq<ClaimEvent>, i: nat)
    requires i < |h|
    ensures match h[i]
            case ClaimUpserted(c) =>
              ClaimMessages(h, i)
              == if c.phase == "Active" && !ClaimWas(h, i, c.name, "Active") then
                   [TenantClaimed(c.name, c.tenant, c.workload, c.source)]
                 else if c.phase == "Released" && !ClaimWas(h, i, c.name, "Released") then
                   [TenantReleased(c.name, c.tenant)]
                 else []
            case ClaimDeleted(c) => ClaimMessages(h, i) == [TenantReleased(c.name, c.tenant)]
            case ClaimOther => ClaimMessages(h, i) == []
  {
    hide ClaimWas, InState;
    if h[i].ClaimUpserted? {
      ClaimWasIs(h, i, h[i].claim.name, ACTIVE);
      ClaimWasIs(h, i, h[i].claim.name, RELEASED);
    }
  }

  // ---- Counting ---------------------------------------------------------------------

  function CountOf(events: seq<Message>, p: Message -> bool): nat {
    if events == [] then 0 else CountOf(events[..|events| - 1], p) + if p(events[|events| - 1]) then 1 else 0
  }

  lemma {:induction false} CountJoins(a: seq<Message>, b: seq<Message>, p: Message -> bool)
    ensures CountOf(a + b, p) == CountOf(a, p) + CountOf(b, p)
    decreases |b|
  {
    if b == [] {
      assert a + b == a;
    } else {
      CountJoins(a, b[..|b| - 1], p);
      assert (a + b)[..|a + b| - 1] == a + b[..|b| - 1];
    }
  }

  function ReadyFor(name: string): Message -> bool {
    (m: Message) => m.PoolInstanceReady? && m.name == name
  }

  function ClaimedFor(name: string): Message -> bool {
    (m: Message) => m.TenantClaimed? && m.name == name
  }

  function ReleasedFor(name: string): Message -> bool {
    (m: Message) => m.TenantReleased? && m.name == name
  }

  /** The rising edges of one object among the first n events. */
  ghost function Edges(h: seq<Change>, n: nat, name: string, s: string): set<nat>
    requires n <= |h|
  {
    set i: nat | i < n && h[i].Seen? && h[i].name == name && Rising(h, i, s)
  }

  ghost function Deletions(h: seq<Change>, n: nat, name: string): set<nat>
    requires n <= |h|
  {
    set i: nat | i < n && h[i] == Gone(name)
  }

  /** Is event i a rising edge of this object?  Then it counts for one. */
  ghost function EdgeAt(h: seq<Change>, i: nat, name: string, s: string): nat
    requires i < |h|
  {
    if h[i].Seen? && h[i].name == name && Rising(h, i, s) then 1 else 0
  }

  ghost function DeletionAt(h: seq<Change>, i: nat, name: string): nat
    requires i < |h|
  {
    if h[i] == Gone(name) then 1 else 0
  }

  lemma EdgesStep(h: seq<Change>, n: nat, name: string, s: string)
    requires 0 < n <= |h|
    ensures |Edges(h, n, name, s)| == |Edges(h, n - 1, name, s)| + EdgeAt(h, n - 1, name, s)
  {
    hide Rising;
    var more: set<nat> := if EdgeAt(h, n - 1, name, s) == 1 then {n - 1} else {};
    assert Edges(h, n, name, s) == Edges(h, n - 1, name, s) + more;
  }

  lemma DeletionsStep(h: seq<Change>, n: nat, name: string)
    requires 0 < n <= |h|
    ensures |Deletions(h, n, name)| == |Deletions(h, n - 1, name)| + DeletionAt(h, n - 1, name)
  {
    var more: set<nat> := if DeletionAt(h, n - 1, name) == 1 then {n - 1} else {};
    assert Deletions(h, n, name) == Deletions(h, n - 1, name) + more;
  }

  lemma CountFew(events: seq<Message>, p: Message -> bool)
    ensures |events| == 1 ==> CountOf(events, p) == if p(events[0]) then 1 else 0
    ensures |events| == 2 ==>
              CountOf(events, p) == (if p(events[0]) then 1 else 0) + if p(events[1]) then 1 else 0
  {
  }

  lemma PodMessageCount(h: seq<PodEvent>, i: nat, name: string)
    requires i < |h|
    ensures CountOf(PodMessages(h, i), ReadyFor(name)) == EdgeAt(PodChanges(h), i, name, READY)
  {
    hide Rising, CountOf;
    CountFew(PodMessages(h, i), ReadyFor(name));
    CountJoins([], [], ReadyFor(name));
    assert [] + [] == PodMessages(h, i) || PodMessages(h, i) != [];
  }

  lemma ClaimMessageCount(h: seq<ClaimEvent>, i: nat, name: string)
    requires i < |h|
    ensures CountOf(ClaimMessages(h, i), ClaimedFor(name)) == EdgeAt(ClaimChanges(h), i, name, ACTIVE)
    ensures CountOf(ClaimMessages(h, i), ReleasedFor(name))
            == EdgeAt(ClaimChanges(h), i, name, RELEASED) + DeletionAt(ClaimChanges(h), i, name)
  {
    hide InState, CountOf;
    CountFew(ClaimMessages(h, i), ClaimedFor(name));
    CountFew(ClaimMessages(h, i), ReleasedFor(name));
    CountJoins([], [], ClaimedFor(name));
    CountJoins([], [], ReleasedFor(name));
    assert [] + [] == ClaimMessages(h, i) || ClaimMessages(h, i) != [];
  }

  /** There are as many ready messages for a pod as it has rising edges to ready. */
  lemma {:induction false} ReadyMessagesAreEdges(h: seq<PodEvent>, n: nat, name: string)
    requires n <= |h|
    ensures CountOf(AllPodMessages(h, n), ReadyFor(name)) == |Edges(PodChanges(h), n, name, READY)|
  {
    hide Rising, PodMessages, EdgeAt;
    if n == 0 {
      assert Edges(PodChanges(h), 0, name, READY) == {};
    } else {
      ReadyMessagesAreEdges(h, n - 1, name);
      CountJoins(AllPodMessages(h, n - 1), PodMessages(h, n - 1), ReadyFor(name));
      PodMessageCount(h, n - 1, name);
      EdgesStep(PodChanges(h), n, name, READY);
    }
  }

  lemma NoneYet(c: seq<Change>, name: string)
    ensures forall s :: Edges(c, 0, name, s) == {}
    ensures Deletions(c, 0, name) == {}
  {
  }

  lemma ClaimChangesLen(h: seq<ClaimEvent>)
    ensures |ClaimChanges(h)| == |h|
  {
  }

  /** Claimed messages are rising edges to Active; released messages are rising edges to Released and deletions. */
  lemma {:induction false} ClaimMessagesAreEdges(h: seq<ClaimEvent>, n: nat, name: string)
    requires n <= |h|
    ensures CountOf(AllClaimMessages(h, n), ClaimedFor(name)) == |Edges(ClaimChanges(h), n, name, ACTIVE)|
    ensures CountOf(AllClaimMessages(h, n), ReleasedFor(name))
            == |Edges(ClaimChanges(h), n, name, RELEASED)| + |Deletions(ClaimChanges(h), n, name)|
  {
    hide Rising, ClaimMessages, EdgeAt, DeletionAt, ClaimChanges, Edges, Deletions, ClaimedFor, ReleasedFor;
    ClaimChangesLen(h);
    var c := ClaimChanges(h);
    if n == 0 {
      NoneYet(c, name);
    } else {
      ClaimMessagesAreEdges(h, n - 1, name);
      CountJoins(AllClaimMessages(h, n - 1), ClaimMessages(h, n - 1), ClaimedFor(name));
      CountJoins(AllClaimMessages(h, n - 1), ClaimMessages(h, n - 1), ReleasedFor(name));
      ClaimMessageCount(h, n - 1, name);
      EdgesStep(c, n, name, ACTIVE);
      EdgesStep(c, n, name, RELEASED);
      DeletionsStep(c, n, name);
    }
  }
}
