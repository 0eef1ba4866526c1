/** The calls the claim controller makes, one method each.  Before every call other actors may run;
    a call may be refused, and an update of an object that has moved on is refused as a conflict. */
module ClaimCalls {
  import opened Wrappers
  import opened Cluster
  import opened ClusterSafety
  import opened Interference
  import opened ApiServers
  import opened ClaimPlan

  /** Tenant pods keep their labels and terminal pods stay terminal; no tenant pod and no old name appears. */
  ghost predicate Keeps(w: World, w': World) {
    && w.used <= w'.used
    && (forall p :: p in w'.pods ==>
          if p in w.pods then
            && w'.pods[p].tenant == w.pods[p].tenant && w'.pods[p].workload == w.pods[p].workload
            && (Terminated(w.pods[p]) ==> Terminated(w'.pods[p]))
            && (w.pods[p].status == Acquired ==> w'.pods[p].status == Acquired)
          else p !in w.used && w'.pods[p].tenant == None)
  }

  /** The API objects are the same (the store revision aside). */
  ghost predicate SameObjects(w: World, w': World) {
    w'.pods == w.pods && w'.claims == w.claims && w'.workloads == w.workloads && w'.secrets == w.secrets
  }

  lemma KeepsPods(w: World, w': World, k: Key)
    requires Keeps(w, w')
    ensures TenantPods(w', k) <= TenantPods(w, k)
  {
  }

  lemma KeepsNone(w: World, w': World, k: Key)
    requires Keeps(w, w') && TenantPods(w, k) == {}
    ensures TenantPods(w', k) == {}
  {
    KeepsPods(w, w', k);
  }

  lemma KeepsGone(w: World, w': World, k: Key, p: string)
    requires Keeps(w, w') && TenantPods(w, k) == {p} && p !in w'.pods
    ensures TenantPods(w', k) == {}
  {
    KeepsPods(w, w', k);
  }

  lemma KeepsMine(w: World, w': World, p: string, k: Key)
    requires Keeps(w, w') && Mine(w, p, k)
    ensures Mine(w', p, k)
  {
  }

  /** The claim copy of this turn is what was read: unless the object has moved on, it still is that. */
  ghost predicate Live(w: World) {
    w.turn.Some? && KnownClaim(w, w.turn.value.name, w.turn.value.claim)
  }

  /** What a call that takes no claim-visible act leaves as it was. */
  ghost predicate Steady(w: World, w': World) {
    && Keeps(w, w') && (Live(w) ==> Live(w'))
    && w'.turn == w.turn && w'.snapshots == w.snapshots && w'.now >= w.now
    && w'.secrets.Keys <= w.secrets.Keys
  }

  lemma RelySteady(w: World, w': World)
    requires ClaimRely(w, w')
    ensures Steady(w, w') && w'.injected == w.injected && w'.snaps == w.snaps
  {
  }

  /** The pod, if it is still there, may be deleted for this reason. */
  ghost predicate MayDelete(w: World, p: string, reason: Reason) {
    && w.turn.Some? && Mine(w, p, w.turn.value.claim.key)
    && (reason == Terminal ==> Beginning(w) && (p in w.pods ==> Terminated(w.pods[p])))
    && (reason == Reap ==> Ending(w) && (MustSave(w) ==> p in w.turn.value.saved))
  }

  lemma DeletableStays(w: World, w': World, p: string, reason: Reason)
    requires Steady(w, w') && MayDelete(w, p, reason)
    ensures MayDelete(w', p, reason)
  {
  }

  /** Acts of the claim controller that no label, no claim and no Secret (but its own) is changed by. */
  lemma SteadyAct(w: World, a: Act)
    requires Enabled(w, a) && Live(w) && (a.CDelete? || a.CRevoke? || a.CDropSnap?)
    ensures Steady(w, Apply(w, a))
    ensures a.CDelete? ==> a.pod !in Apply(w, a).pods
    ensures a.CRevoke? ==> w.turn.value.name !in Apply(w, a).secrets
  {
  }

  /** An extraction changes the turn by at most the pod it saved. */
  ghost predicate SavedMore(t: Turn, t': Turn, p: string, x: Extraction) {
    && t' == t.(saved := t'.saved)
    && t'.saved.Keys == if x == Stored then t.saved.Keys + {p} else t.saved.Keys
  }

  lemma TurnAct(w: World, a: Act)
    requires Enabled(w, a) && Live(w) && (a.CRead? || a.CExtract?)
    ensures var w' := Apply(w, a);
            Keeps(w, w') && Live(w') && SameObjects(w, w') && w'.snapshots == w.snapshots && w'.now == w.now
    ensures a.CRead? ==> Apply(w, a).turn == Some(w.turn.value.(views := w.turn.value.views + [a.read]))
    ensures a.CExtract? ==>
              Apply(w, a).turn.Some? && SavedMore(w.turn.value, Apply(w, a).turn.value, a.pod, a.extraction)
  {
  }

  /** There is a snapshot that does not fail its check, and a pod to put it into. */
  predicate Injectable(w: World, p: string) {
    && w.turn.Some?
    && var k := w.turn.value.claim.key;
    && p in w.pods && k in w.snaps && w.snaps[k] != Torn(false)
  }

  /** The stored claim has the version of the copy. */
  predicate SameVersion(w: World) {
    && w.turn.Some?
    && var t := w.turn.value;
    && t.name in w.claims && w.claims[t.name].rv == t.claim.rv
  }

  lemma MintAct(w: World)
    requires Live(w) && Beginning(w) && w.turn.value.name !in w.secrets
    ensures Enabled(w, CMint)
    ensures var w' := Apply(w, CMint); var c := w.turn.value.name;
            Live(w') && w'.turn == w.turn && Keeps(w, w') && c in w'.secrets && w'.secrets[c].token == w.minted
  {
  }

  lemma CreateAct(w: World, p: string)
    requires Live(w) && Beginning(w) && p !in w.used && TenantPods(w, w.turn.value.claim.key) == {}
    ensures Enabled(w, CCreate(p))
    ensures var w' := Apply(w, CCreate(p));
            && Live(w') && w'.turn == w.turn && p in w'.pods && w'.pods[p].ip == ""
            && Mine(w', p, w.turn.value.claim.key)
  {
  }

  /** When the other acts of the client are allowed. */
  lemma MayAct(w: World, a: Act)
    requires w.turn.Some?
    requires match a {
               case CDelete(p, reason) => MayDelete(w, p, reason) && p in w.pods
               case CRevoke =>
                 Ending(w) && w.turn.value.name in w.secrets && TenantPods(w, w.turn.value.claim.key) == {}
               case CDropSnap(_) => Ending(w) && TurnAction(w.turn.value) == Destroy
               case CRead(r) => r.Unreadable? || r == (var wl := w.turn.value.claim.key.workload;
                                                       if wl in w.workloads then Found(w.workloads[wl]) else Missing)
               case CExtract(p, x) =>
                 && Ending(w) && MustSave(w) && Mine(w, p, w.turn.value.claim.key) && p !in w.turn.value.saved
                 && (p !in w.pods ==> x == FailedClean)
               case _ => false
             }
    ensures Enabled(w, a)
  {
  }

  /** The pod was acquired from the pool and nothing has been injected into it. */
  ghost predicate Injectee(w: World, p: string) {
    p !in w.injected && (p in w.pods ==> w.pods[p].status == Acquired)
  }

  lemma InjecteeStays(w: World, w': World, p: string)
    requires Keeps(w, w') && w'.injected == w.injected && Injectee(w, p) && p in w.used
    ensures Injectee(w', p)
  {
  }

  /** The pod still is as it was listed. */
  ghost predicate Unchanged(w: World, p: PodRef) {
    p.name in w.pods && w.pods[p.name] == p.pod
  }

  /** The listed pod, unchanged but for its labels, is the claim's now. */
  ghost predicate AcquiredFrom(w: World, p: PodRef) {
    && w.turn.Some? && p.name in w.pods
    && w.pods[p.name] == p.pod.(tenant := Some(w.turn.value.claim.key.tenant), status := Acquired, rv := w.rv)
  }

  lemma AcquireAct(w: World, p: PodRef)
    requires Live(w) && Beginning(w) && Unchanged(w, p) && p.name in w.used && InjectedInv(w)
    requires var k := w.turn.value.claim.key;
             TenantPods(w, k) == {} && p.pod.status == Ready && p.pod.workload == k.workload
    ensures Enabled(w, CAcquire(p.name))
    ensures var w' := Apply(w, CAcquire(p.name));
            && Live(w') && w'.turn == w.turn && Mine(w', p.name, w.turn.value.claim.key)
            && Injectee(w', p.name) && AcquiredFrom(w', p)
  {
  }

  /** Acts that write no claim and begin no reconcile. */
  predicate KeepsClaims(a: Act) {
    ActorOf(a) == Claims && !a.CBegin? && !a.CFinalize? && !a.CStatus? && !a.CUnfinalize?
  }

  lemma VersionStays(w: World, a: Act)
    requires Enabled(w, a)
    ensures KeepsClaims(a) && SameVersion(w) ==> SameVersion(Apply(w, a))
  {
  }

  /** All acts from the n-th on are the claim controller's. */
  ghost predicate AllClaims(acts: seq<Act>, n: nat) {
    forall m :: n <= m < |acts| ==> ActorOf(acts[m]) == Claims
  }

  /** An inject is allowed for a pod of the claim's own, and leaves it that. */
  lemma InjectAct(w: World, p: string, ok: bool, junk: Bytes)
    requires Live(w) && Beginning(w) && Mine(w, p, w.turn.value.claim.key) && Injectee(w, p)
    requires ok ==> Injectable(w, p)
    ensures Enabled(w, CInject(p, ok, junk))
    ensures var w' := Apply(w, CInject(p, ok, junk)); var k := w.turn.value.claim.key;
            Live(w') && w'.turn == w.turn && Mine(w', p, k) && (ok ==> InjectedFor(w', p, k))
  {
    hide SnapsAfter, DisksAfter, WorkloadsAfter, MayWrite;
  }

  lemma SteadyTrans(w: World, w': World, w'': World)
    requires NamesInv(w) && Keeps(w, w') && Keeps(w', w'')
    ensures Keeps(w, w'')
  {
  }

  /** A status that may be written stays writable while only others act. */
  lemma WritableStays(w: World, w': World, st: Status)
    requires ClaimRely(w, w') && NamesInv(w) && ClaimsInv(w) && MayWrite(w, st)
    ensures MayWrite(w', st)
  {
    var t := w.turn.value;
    RelySteady(w, w');
    KeepsPods(w, w', t.claim.key);
    if st.instance.Some? && Mine(w, st.instance.value, t.claim.key) {
      KeepsMine(w, w', st.instance.value, t.claim.key);
    }
  }

  lemma SoleTenantPod(init: World, acts: seq<Act>, k: Key, p: string)
    requires Inv(init) && Legal(init, acts) && p in TenantPods(Exec(init, acts), k)
    ensures TenantPods(Exec(init, acts), k) == {p} && p in Exec(init, acts).used
  {
    RunInv(init, acts);
    assert OnePodInv(Exec(init, acts));
  }

  /** A reconcile begins with its claim as it is, and such a claim is sound. */
  lemma Beginnings(w: World, c: string)
    requires c in w.claims && NamesInv(w) && ClaimsInv(w)
    ensures var w' := Apply(w, CBegin(c));
            && Live(w') && w'.turn == Some(Turn(c, w.claims[c], [], map[])) && ClaimOk(w', w.claims[c])
            && SameObjects(w, w') && w'.snapshots == w.snapshots
  {
    ClaimOkStays(w, Apply(w, CBegin(c)), w.claims[c]);
  }

  class ClaimClient {
    const api: ApiServer
    /** Every answer the reconcile in progress has got. */
    ghost var seen: Seen
    /** A reconcile is in progress and has not written its claim. */
    ghost var open: bool
    /** The acts of everybody when the reconcile in progress began. */
    ghost var begun: seq<Act>

    ghost predicate Valid()
      reads this, api
    {
      api.Valid() && Alone() && Smooth()
    }

    /** In a calm cluster nobody but this controller has acted during the reconcile. */
    ghost predicate Alone()
      reads this, api
    {
      api.calm ==> begun <= api.acts && AllClaims(api.acts, |begun|)
    }

    /** In a calm cluster no call has failed, and the claim is as it was read until it is written. */
    ghost predicate Smooth()
      reads this, api
    {
      api.calm ==> NoFailure(seen) && (open ==> SameVersion(api.world))
    }

    /** The acts of the claim controller so far. */
    ghost function Own(): seq<Act>
      reads this, api
    {
      By(api.acts, Claims)
    }

    constructor (api: ApiServer)
      requires api.Valid()
      ensures Valid() && this.api == api
    {
      this.api := api;
      seen, open, begun := BLANK, false, api.acts;
    }

    /** The claim copy of a reconcile stays sound, whoever acts. */
    lemma ClaimHolds()
      requires Valid() && Live(api.world)
      ensures ClaimOk(api.world, api.world.turn.value.claim)
    {
      RunInv(api.init, api.acts);
    }

    lemma InjectedHolds()
      requires api.Valid()
      ensures InjectedInv(api.world)
    {
      RunInv(api.init, api.acts);
    }

    /** A new reconcile starts. */
    method Reset()
      requires api.Valid()
      modifies this
      ensures Valid() && seen == BLANK && !open && begun == api.acts
    {
      seen, open, begun := BLANK, false, api.acts;
    }

    /** Let the others run. */
    method Yield()
      requires Valid()
      modifies api
      ensures Valid() && ClaimRely(old(api.world), api.world) && Own() == old(Own())
      ensures NamesInv(old(api.world)) && NamesInv(api.world)
      ensures api.calm ==> api.world == old(api.world)
    {
      hide ClaimRely, Enabled, Apply, By, OnlyOthers, NoFailure, SameVersion, AllClaims;
      ghost var before := api.acts;
      api.Interfere(Claims);
      ghost var after := api.acts;
      ClaimRelyRun(api.init, after, |before|, |after|);
      ByOthers(after, |before|, Claims);
      assert after[..|before|] == before && after[..|after|] == after;
      RunInv(api.init, before);
      RunInv(api.init, after);
    }

    /** Take an act. */
    method Take(a: Act)
      requires api.Valid() && Alone() && Enabled(api.world, a) && ActorOf(a) == Claims
      modifies api
      ensures api.Valid() && Alone() && api.world == Apply(old(api.world), a) && Own() == old(Own()) + [a]
      ensures KeepsClaims(a) && SameVersion(old(api.world)) ==> SameVersion(api.world)
    {
      hide Enabled, Apply, Legal, Inv, Exec;
      ByOne(api.acts, a, Claims);
      VersionStays(api.world, a);
      api.Commit(a);
    }

    method GetClaim(name: string) returns (c: Answer<Claim>)
      requires Valid()
      modifies this`seen, this`open, api
      ensures Valid() && seen == old(seen).(claim := c) && open == c.Got?
      ensures Own() == old(Own()) + if c.Got? then [CBegin(name)] else []
      ensures c.Got? ==> Live(api.world) && api.world.turn == Some(Turn(name, c.value, [], map[]))
      ensures c.Got? ==> ClaimOk(api.world, c.value)
      ensures api.world.snapshots == old(api.world.snapshots)
      ensures api.calm ==> SameObjects(old(api.world), api.world) && api.world.now == old(api.world).now
      ensures api.calm ==> c == if name in old(api.world.claims) then Got(old(api.world.claims)[name]) else Absent
    {
      hide Legal, Inv, Exec, By;
      Yield();
      var refused := api.Refused();
      if refused {
        c := Failed;
      } else if name !in api.world.claims {
        c := Absent;
      } else {
        c := Got(api.world.claims[name]);
        RunInv(api.init, api.acts);
        Beginnings(api.world, name);
        Take(CBegin(name));
      }
      seen, open := seen.(claim := c), c.Got?;
    }

    // ---- Reads --------------------------------------------------------------------

    method GetWorkload(again: bool) returns (r: Read)
      requires Valid() && Live(api.world)
      modifies this`seen, api
      ensures Valid() && seen == if again then old(seen).(second := r) else old(seen).(first := r)
      ensures Own() == old(Own()) + [CRead(r)]
      ensures Live(api.world) && Keeps(old(api.world), api.world)
      ensures var t := old(api.world).turn.value; api.world.turn == Some(t.(views := t.views + [r]))
      ensures api.world.snapshots == old(api.world.snapshots) && api.world.now >= old(api.world.now)
      ensures api.calm ==> !r.Unreadable? && SameObjects(old(api.world), api.world)
      ensures api.calm ==> api.world.now == old(api.world).now
      ensures api.calm ==> var wl := old(api.world).turn.value.claim.key.workload;
                           r == if wl in old(api.world.workloads) then Found(old(api.world.workloads)[wl]) else Missing
    {
      hide Legal, Inv, Exec, By, Enabled, Apply, SameVersion;
      Yield();
      RelySteady(old(api.world), api.world);
      var wl := api.world.turn.value.claim.key.workload;
      var refused := api.Refused();
      r := if refused then Unreadable
           else if wl in api.world.workloads then Found(api.world.workloads[wl])
           else Missing;
      ghost var mid := api.world;
      MayAct(mid, CRead(r));
      TurnAct(mid, CRead(r));
      Take(CRead(r));
      SteadyTrans(old(api.world), mid, api.world);
      seen := if again then seen.(second := r) else seen.(first := r);
    }

    /** findTenantPod: the first pod of a List by tenant and workload label. */
    method FindTenantPod(k: Key) returns (p: Answer<PodRef>)
      requires Valid() && Live(api.world)
      modifies this`seen, api
      ensures Valid() && seen == old(seen).(tenantPod := p) && Own() == old(Own())
      ensures Steady(old(api.world), api.world)
      ensures p.Absent? ==> TenantPods(api.world, k) == {}
      ensures p.Got? ==> && TenantPods(api.world, k) == {p.value.name} && p.value.name in api.world.pods
                         && api.world.pods[p.value.name] == p.value.pod && Mine(api.world, p.value.name, k)
      ensures api.calm ==> !p.Failed? && api.world == old(api.world)
    {
      hide Legal, Inv, Exec, By, Enabled, Apply, SameVersion;
      Yield();
      RelySteady(old(api.world), api.world);
      var refused := api.Refused();
      if refused {
        p := Failed;
      } else {
        var names := TenantPods(api.world, k);
        if names == {} {
          p := Absent;
        } else {
          var name :| name in names;
          p := Got(PodRef(name, api.world.pods[name]));
          SoleTenantPod(api.init, api.acts, k, name);
        }
      }
      seen := seen.(tenantPod := p);
    }

    /** findPoolPod: the first pod of a List by workload label and pool-status=ready. */
    method FindPoolPod(wl: string) returns (p: Answer<PodRef>)
      requires Valid() && Live(api.world)
      modifies this`seen, api
      ensures Valid() && seen == old(seen).(got := old(seen).got.(poolPod := p)) && Own() == old(Own())
      ensures Steady(old(api.world), api.world)
      ensures p.Absent? ==> ReadyPods(api.world, wl) == {}
      ensures p.Got? ==> && p.value.name in ReadyPods(api.world, wl) && api.world.pods[p.value.name] == p.value.pod
                         && KnownPod(api.world, p.value.name, p.value.pod)
      ensures api.calm ==> !p.Failed? && api.world == old(api.world)
    {
      hide Legal, Inv, Exec, By, Enabled, Apply, SameVersion;
      Yield();
      RelySteady(old(api.world), api.world);
      var refused := api.Refused();
      if refused {
        p := Failed;
      } else {
        var names := ReadyPods(api.world, wl);
        if names == {} {
          p := Absent;
        } else {
          var name :| name in names;
          p := Got(PodRef(name, api.world.pods[name]));
        }
      }
      seen := seen.(got := seen.got.(poolPod := p));
    }

    /** Does a Get of the claim's instance say NotFound?  Any other error counts as no. */
    method InstanceGone(p: string) returns (gone: bool)
      requires Valid() && Live(api.world)
      modifies this`seen, api
      ensures Valid() && seen == old(seen).(instanceGone := gone) && Own() == old(Own())
      ensures Steady(old(api.world), api.world)
      ensures gone ==> p !in api.world.pods
      ensures api.calm ==> gone == (p !in old(api.world).pods) && api.world == old(api.world)
    {
      hide Legal, Inv, Exec, By, Enabled, Apply, SameVersion;
      Yield();
      RelySteady(old(api.world), api.world);
      var refused := api.Refused();
      gone := !refused && p !in api.world.pods;
      seen := seen.(instanceGone := gone);
    }

    method HasSnapshot() returns (has: bool)
      requires Valid() && Live(api.world)
      modifies this`seen, api
      ensures Valid() && seen == old(seen).(got := old(seen).got.(hasSnapshot := has)) && Own() == old(Own())
      ensures Steady(old(api.world), api.world) && api.world.injected == old(api.world).injected
      ensures api.calm ==> var w := old(api.world);
                           has == (w.snapshots && w.turn.value.claim.key in w.snaps) && api.world == w
    {
      hide Legal, Inv, Exec, By, Enabled, Apply, SameVersion;
      Yield();
      RelySteady(old(api.world), api.world);
      var refused := api.Refused();
      has := !refused && api.world.snapshots && api.world.turn.value.claim.key in api.world.snaps;
      seen := seen.(got := seen.got.(hasSnapshot := has));
    }

    /** The clock, read in the controller's own process. */
    method Now() returns (now: int)
      requires Valid()
      modifies this`seen
      ensures seen == old(seen).(now := now) && now == api.world.now
    {
      now := api.world.now;
      seen := seen.(now := now);
    }

    // ---- Writes of the claim -------------------------------------------------------

    method AddFinalizer() returns (ok: bool)
      requires Valid() && open && Live(api.world)
      requires var c := api.world.turn.value.claim; !c.deleting && !c.finalizer && Fresh(c.status.phase)
      modifies this`seen, this`open, api
      ensures Valid() && seen == old(seen).(wrote := ok)
      ensures Own() == old(Own()) + if ok then [CFinalize] else []
      ensures api.calm ==> ok
    {
      hide Legal, Inv, Exec, By;
      Yield();
      var refused := api.Refused();
      ok := !refused && SameVersion(api.world);
      if ok {
        Take(CFinalize);
      }
      seen, open := seen.(wrote := ok), false;
    }

    method UpdateStatus(st: Status) returns (ok: bool)
      requires Valid() && open && Live(api.world) && MayWrite(api.world, st)
      modifies this`seen, this`open, api
      ensures Valid() && seen == old(seen).(wrote := ok)
      ensures Own() == old(Own()) + if ok then [CStatus(st)] else []
      ensures api.calm ==> ok
    {
      hide Legal, Inv, Exec, By;
      RunInv(api.init, api.acts);
      ghost var before := api.world;
      Yield();
      WritableStays(before, api.world, st);
      var refused := api.Refused();
      ok := !refused && SameVersion(api.world);
      if ok {
        Take(CStatus(st));
      }
      seen, open := seen.(wrote := ok), false;
    }

    method RemoveFinalizer() returns (ok: bool)
      requires Valid() && open && Live(api.world)
      requires api.world.turn.value.claim.deleting && api.world.turn.value.claim.finalizer
      requires TenantPods(api.world, api.world.turn.value.claim.key) == {}
      requires api.world.turn.value.name !in api.world.secrets
      modifies this`seen, this`open, api
      ensures Valid() && seen == old(seen).(wrote := ok)
      ensures Own() == old(Own()) + if ok then [CUnfinalize] else []
      ensures api.calm ==> ok
    {
      hide Legal, Inv, Exec, By;
      Yield();
      RelySteady(old(api.world), api.world);
      var t := api.world.turn.value;
      KeepsPods(old(api.world), api.world, t.claim.key);
      var refused := api.Refused();
      ok := !refused && SameVersion(api.world);
      if ok {
        Take(CUnfinalize);
      }
      seen, open := seen.(wrote := ok), false;
    }

    // ---- Pods ---------------------------------------------------------------------------

    /** Delete; NotFound counts as success. */
    method DeletePod(p: string, reason: Reason) returns (d: Deletion)
      requires Valid() && Live(api.world) && MayDelete(api.world, p, reason)
      modifies this`seen, api
      ensures Valid() && seen == old(seen).(podDeleted := d)
      ensures Own() == old(Own()) + if d == Removed then [CDelete(p, reason)] else []
      ensures Steady(old(api.world), api.world)
      ensures d != NotDeleted ==> p !in api.world.pods
      ensures api.calm ==> d == if p in old(api.world).pods then Removed else WasGone
    {
      hide Legal, Inv, Exec, By, Enabled, Apply, SameVersion;
      Yield();
      RelySteady(old(api.world), api.world);
      DeletableStays(old(api.world), api.world, p, reason);
      var refused := api.Refused();
      if refused {
        d := NotDeleted;
      } else if p !in api.world.pods {
        d := WasGone;
      } else {
        d := Removed;
        ghost var mid := api.world;
        MayAct(mid, CDelete(p, reason));
        SteadyAct(mid, CDelete(p, reason));
        Take(CDelete(p, reason));
        SteadyTrans(old(api.world), mid, api.world);
      }
      seen := seen.(podDeleted := d);
    }

    /** Relabel a pool pod for the claim's tenant. */
    method AcquirePod(p: PodRef) returns (ok: bool)
      requires Valid() && Live(api.world) && Beginning(api.world) && KnownPod(api.world, p.name, p.pod)
      requires var k := api.world.turn.value.claim.key;
               TenantPods(api.world, k) == {} && p.pod.status == Ready && p.pod.workload == k.workload
      requires api.calm ==> Unchanged(api.world, p)
      modifies this`seen, api
      ensures Valid() && seen == old(seen).(got := old(seen).got.(acquired := ok))
      ensures Own() == old(Own()) + if ok then [CAcquire(p.name)] else []
      ensures Live(api.world) && api.world.turn == old(api.world.turn)
      ensures ok ==> Mine(api.world, p.name, api.world.turn.value.claim.key) && Injectee(api.world, p.name)
      ensures ok ==> AcquiredFrom(api.world, p)
      ensures api.calm ==> ok
    {
      hide Legal, Inv, Exec, By, Enabled, Apply;
      Yield();
      RelySteady(old(api.world), api.world);
      KeepsPods(old(api.world), api.world, api.world.turn.value.claim.key);
      var refused := api.Refused();
      ok := !refused && p.name in api.world.pods && api.world.pods[p.name].rv == p.pod.rv;
      if ok {
        assert api.world.pods[p.name] == p.pod;
        InjectedHolds();
        AcquireAct(api.world, p);
        Take(CAcquire(p.name));
      }
      seen := seen.(got := seen.got.(acquired := ok));
    }

    /** createTenantPod: translate, and create the pod under a random name.  Failing to build the pod is
        a failure of this call. */
    method CreatePod() returns (p: Option<PodRef>)
      requires Valid() && Live(api.world) && Beginning(api.world)
      requires TenantPods(api.world, api.world.turn.value.claim.key) == {}
      modifies this`seen, api
      ensures Valid() && seen == old(seen).(got := old(seen).got.(created := p))
      ensures Own() == old(Own()) + if p.Some? then [CCreate(p.value.name)] else []
      ensures Live(api.world) && api.world.turn == old(api.world.turn)
      ensures p.Some? ==> Mine(api.world, p.value.name, api.world.turn.value.claim.key) && p.value.pod.ip == ""
      ensures api.calm ==> p.Some?
    {
      hide Legal, Inv, Exec, By, Enabled, Apply, SameVersion;
      Yield();
      RelySteady(old(api.world), api.world);
      var k := api.world.turn.value.claim.key;
      KeepsPods(old(api.world), api.world, k);
      var suffix := FreshSuffix(k.workload + "-" + k.tenant + "-", api.world.used);
      var name := k.workload + "-" + k.tenant + "-" + suffix;
      var refused := api.Refused();
      if refused {
        p := None;
      } else {
        CreateAct(api.world, name);
        Take(CCreate(name));
        p := Some(PodRef(name, api.world.pods[name]));
      }
      seen := seen.(got := seen.got.(created := p));
    }

    // ---- Token Secret -----------------------------------------------------------------

    /** ensureClaimToken: get or create; an existing Secret is left alone. */
    method EnsureToken() returns (r: TokenAnswer)
      requires Valid() && Live(api.world) && Beginning(api.world)
      modifies this`seen, api
      ensures Valid() && seen == old(seen).(got := old(seen).got.(token := r))
      ensures Own() == old(Own()) + if r == Minted then [CMint] else []
      ensures Live(api.world) && api.world.turn == old(api.world.turn) && Keeps(old(api.world), api.world)
      ensures r != TokenFailed ==> api.world.turn.value.name in api.world.secrets
      ensures var c := old(api.world).turn.value.name;
              && (r == HadToken ==> c in old(api.world).secrets && api.world.secrets[c] == old(api.world).secrets[c])
              && (r == Minted ==> api.world.secrets[c].token == old(api.world).minted)
      ensures api.calm ==> r == if old(api.world).turn.value.name in old(api.world).secrets then HadToken else Minted
    {
      hide Legal, Inv, Exec, By, Enabled, Apply, SameVersion;
      Yield();
      RelySteady(old(api.world), api.world);
      var refused := api.Refused();
      if refused {
        r := TokenFailed;
      } else if api.world.turn.value.name in api.world.secrets {
        r := HadToken;
      } else {
        ghost var mid := api.world;
        Yield();
        RelySteady(mid, api.world);
        var failed := api.Refused();
        SteadyTrans(old(api.world), mid, api.world);
        if failed {
          r := TokenFailed;
        } else {
          r := Minted;
          MintAct(api.world);
          ghost var last := api.world;
          Take(CMint);
          SteadyTrans(old(api.world), last, api.world);
        }
      }
      seen := seen.(got := seen.got.(token := r));
    }

    /** deleteClaimToken; NotFound counts as success. */
    method RevokeToken() returns (d: Deletion)
      requires Valid() && Live(api.world) && Ending(api.world)
      requires TenantPods(api.world, api.world.turn.value.claim.key) == {}
      modifies this`seen, api
      ensures Valid() && seen == old(seen).(revoked := d)
      ensures Own() == old(Own()) + if d == Removed then [CRevoke] else []
      ensures Steady(old(api.world), api.world)
      ensures d != NotDeleted ==> api.world.turn.value.name !in api.world.secrets
      ensures api.calm ==> d == if old(api.world).turn.value.name in old(api.world).secrets then Removed else WasGone
    {
      hide Legal, Inv, Exec, By, Enabled, Apply, SameVersion;
      Yield();
      RelySteady(old(api.world), api.world);
      KeepsPods(old(api.world), api.world, api.world.turn.value.claim.key);
      var refused := api.Refused();
      if refused {
        d := NotDeleted;
      } else if api.world.turn.value.name !in api.world.secrets {
        d := WasGone;
      } else {
        d := Removed;
        ghost var mid := api.world;
        MayAct(mid, CRevoke);
        SteadyAct(mid, CRevoke);
        Take(CRevoke);
        SteadyTrans(old(api.world), mid, api.world);
      }
      seen := seen.(revoked := d);
    }

    // ---- Snapshots ------------------------------------------------------------------------

    /** InjectSnapshot. */
    method Inject(p: string) returns (ok: bool)
      requires Valid() && Live(api.world) && Beginning(api.world)
      requires Mine(api.world, p, api.world.turn.value.claim.key) && Injectee(api.world, p)
      modifies this`seen, api
      ensures Valid() && seen == old(seen).(got := old(seen).got.(injected := ok, junk := seen.got.junk))
      ensures Own() == old(Own()) + [CInject(p, ok, seen.got.junk)]
      ensures Live(api.world) && api.world.turn == old(api.world.turn)
      ensures Mine(api.world, p, api.world.turn.value.claim.key)
      ensures ok ==> InjectedFor(api.world, p, api.world.turn.value.claim.key)
      ensures api.calm ==> ok == Injectable(old(api.world), p)
    {
      hide Legal, Inv, Exec, By, Enabled, Apply;
      Yield();
      RelySteady(old(api.world), api.world);
      var k := api.world.turn.value.claim.key;
      KeepsMine(old(api.world), api.world, p, k);
      InjecteeStays(old(api.world), api.world, p);
      var refused := api.Refused();
      ok := !refused && Injectable(api.world, p);
      var junk: Bytes := *;
      InjectAct(api.world, p, ok, junk);
      Take(CInject(p, ok, junk));
      seen := seen.(got := seen.got.(injected := ok, junk := junk));
    }

    /** One ExtractAndStore of the tenant pod's overlay. */
    method ExtractAndStore(p: string) returns (x: Extraction)
      requires Valid() && Live(api.world) && Ending(api.world) && MustSave(api.world)
      requires Mine(api.world, p, api.world.turn.value.claim.key) && p !in api.world.turn.value.saved
      modifies this`seen, api
      ensures Valid() && seen == old(seen).(extractions := old(seen).extractions + [x])
      ensures Own() == old(Own()) + [CExtract(p, x)]
      ensures Live(api.world) && Keeps(old(api.world), api.world) && api.world.now >= old(api.world.now)
      ensures api.world.snapshots == old(api.world.snapshots) && api.world.turn.Some?
      ensures NamesInv(old(api.world))
      ensures SavedMore(old(api.world).turn.value, api.world.turn.value, p, x)
      ensures api.calm ==> x == if p in old(api.world).pods then Stored else FailedClean
    {
      hide Legal, Inv, Exec, By, Enabled, Apply, SameVersion;
      Yield();
      RelySteady(old(api.world), api.world);
      KeepsMine(old(api.world), api.world, p, api.world.turn.value.claim.key);
      x := *;
      if api.calm {
        x := Stored;
      }
      if p !in api.world.pods {
        x := FailedClean;
      }
      ghost var mid := api.world;
      MayAct(mid, CExtract(p, x));
      TurnAct(mid, CExtract(p, x));
      Take(CExtract(p, x));
      SteadyTrans(old(api.world), mid, api.world);
      seen := seen.(extractions := seen.extractions + [x]);
    }

    /** DeleteSnapshot; its errors are only logged. */
    method DeleteSnapshot()
      requires Valid() && Live(api.world) && Ending(api.world)
      requires TurnAction(api.world.turn.value) == Destroy
      modifies this`seen, api
      ensures Valid() && seen == old(seen).(dropped := seen.dropped)
      ensures Own() == old(Own()) + [CDropSnap(seen.dropped)] && (api.calm ==> seen.dropped)
      ensures Steady(old(api.world), api.world)
    {
      hide Legal, Inv, Exec, By, Enabled, Apply, SameVersion;
      Yield();
      RelySteady(old(api.world), api.world);
      var failed := api.Refused();
      var removed := !failed;
      ghost var mid := api.world;
      MayAct(mid, CDropSnap(removed));
      SteadyAct(mid, CDropSnap(removed));
      Take(CDropSnap(removed));
      SteadyTrans(old(api.world), mid, api.world);
      seen := seen.(dropped := removed);
    }
  }
}
