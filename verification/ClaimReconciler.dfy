/** The claim controller: Reconcile and the functions it is split into. */
module ClaimReconcilers {
  import opened Wrappers
  import opened Cluster
  import opened ClusterSafety
  import opened Interference
  import opened ApiServers
  import opened ClaimPlan
  import opened ClaimCalls

  function Sum(xs: seq<nat>): nat { if xs == [] then 0 else Sum(xs[..|xs| - 1]) + xs[|xs| - 1] }

  lemma SumNext(xs: seq<nat>, n: nat)
    requires n < |xs|
    ensures Sum(xs[..n + 1]) == Sum(xs[..n]) + xs[n]
  {
    assert xs[..n + 1][..n] == xs[..n];
  }

  lemma DefaultSums()
    ensures Sum(DEFAULT_BACKOFF[..0]) == 0 && Sum(DEFAULT_BACKOFF[..1]) == 1 && Sum(DEFAULT_BACKOFF[..2]) == 5
  {
    assert DEFAULT_BACKOFF[..1] == [1] && DEFAULT_BACKOFF[..2] == [1, 4];
    assert [1, 4][..1] == [1] && [1][..0] == [];
  }

  lemma ExtractActsNext(p: string, xs: seq<Extraction>, x: Extraction)
    ensures ExtractActs(p, xs + [x]) == ExtractActs(p, xs) + [CExtract(p, x)]
  {
  }

  /** activateClaim may be called with this pod and source. */
  ghost predicate Activatable(w: World, p: PodRef, source: Source) {
    && Beginning(w) && Mine(w, p.name, w.turn.value.claim.key) && source != NoSource
    && (source == FromPoolData ==> InjectedFor(w, p.name, w.turn.value.claim.key))
  }

  lemma StashMayBeWritten(w: World, p: PodRef, source: Source)
    requires Activatable(w, p, source)
    ensures MayWrite(w, w.turn.value.claim.status.(source := source, instance := Some(p.name)))
  {
  }

  lemma ActiveMayBeWritten(w: World, p: PodRef, source: Source)
    requires Activatable(w, p, source) && p.pod.ip != ""
    ensures MayWrite(w, ActiveStatus(w.turn.value.claim.status, p, source, w.now))
  {
    assert ToActive(w, w.turn.value, ActiveStatus(w.turn.value.claim.status, p, source, w.now));
  }

  /** Only the answers about obtaining a pod, the clock and the last write are new. */
  ghost predicate OnlyGot(s: Seen, s': Seen) {
    s' == s.(got := s'.got, now := s'.now, wrote := s'.wrote)
  }

  /** The answer of the tenant pod List is the truth about this world. */
  ghost predicate TrueOfTenantPod(w: World, s: Seen) {
    && w.turn.Some? && !s.tenantPod.Failed?
    && (s.tenantPod.Absent? ==> TenantPods(w, w.turn.value.claim.key) == {})
    && (s.tenantPod.Got? ==> s.tenantPod.value.name in TenantPods(w, w.turn.value.claim.key)
                             && s.tenantPod.value.pod == w.pods[s.tenantPod.value.name])
  }

  /** The answers handleActive collects. */
  ghost predicate ActiveAnswers(s: Seen, s': Seen) {
    EndAnswers(s.(instanceGone := s'.instanceGone, first := s'.first, second := s'.second,
                  tenantPod := s'.tenantPod, now := s'.now), s')
  }

  ghost predicate TrueOfReconcile(w: World, name: string, s: Seen) {
    && s.claim == (if name in w.claims then Got(w.claims[name]) else Absent)
    && (name in w.claims ==> TrueOfRoute(w.(turn := Some(Turn(name, w.claims[name], [], map[]))), s))
  }

  /** One undisturbed reconcile: true answers, no failures, and the acts of the plan. */
  ghost predicate Reconciles(w: World, name: string, s: Seen, w': World) {
    && TrueOfReconcile(w, name, s) && NoFailure(s)
    && var acts := ReconcilePlan(name, w.snapshots, s).acts;
    && Legal(w, acts) && w' == Exec(w, acts)
  }

  lemma {:induction false} ByAll(acts: seq<Act>, more: seq<Act>)
    requires AllClaims(acts + more, |acts|)
    ensures By(acts + more, Claims) == By(acts, Claims) + more
    decreases |more|
  {
    if more == [] {
      assert acts + more == acts;
    } else {
      var n := |more| - 1;
      assert (acts + more)[..|acts + more| - 1] == acts + more[..n] && (acts + more)[|acts| + n] == more[n];
      assert forall m :: |acts| <= m < |acts| + n ==> (acts + more[..n])[m] == (acts + more)[m];
      ByAll(acts, more[..n]);
    }
  }

  /** Acts of this controller alone, which are those of a plan: the world is where the plan leads. */
  lemma PlanLeads(init: World, acts: seq<Act>, acts': seq<Act>, plan: seq<Act>)
    requires Legal(init, acts') && acts <= acts' && AllClaims(acts', |acts|)
    requires By(acts', Claims) == By(acts, Claims) + plan
    ensures Legal(init, acts) && Legal(Exec(init, acts), plan)
    ensures Exec(init, acts') == Exec(Exec(init, acts), plan)
  {
    var more := acts'[|acts|..];
    assert acts' == acts + more;
    ByAll(acts, more);
    ghost var own := By(acts, Claims);
    assert (own + more)[|own|..] == more && (own + plan)[|own|..] == plan;
    LegalSplit(init, acts, more);
  }

  /** True answers on each of the paths a reconcile may take. */
  ghost predicate TrueOfRoute(w: World, s: Seen)
    requires w.turn.Some?
  {
    var c := CopyIn(w);
    && (WantsPod(c) ==> TrueOfPending(w, s))
    && (c.deleting && c.finalizer ==> TrueOfDeletion(w, s))
    && (!c.deleting && c.status.phase == Active ==> TrueOfActive(w, s))
  }

  /** What a Get of the claim's workload would say in this world. */
  ghost function ReadIn(w: World): Read
    requires w.turn.Some?
  {
    var wl := w.turn.value.claim.key.workload;
    if wl in w.workloads then Found(w.workloads[wl]) else Missing
  }

  ghost predicate TrueOfDeletion(w: World, s: Seen) {
    w.turn.Some? && s.first == ReadIn(w) && TrueOfTenantPod(w, s)
  }

  /** The idle deadline has been found to be over. */
  ghost predicate FoundIdle(c: Claim, s: Seen) {
    && s.first.Found? && s.first.wl.timeout > 0
    && LastSeen(c).Some? && s.now - LastSeen(c).value >= s.first.wl.timeout
  }

  ghost predicate TrueOfActive(w: World, s: Seen) {
    && w.turn.Some?
    && var c := w.turn.value.claim;
    && c.status.instance.Some?
    && s.instanceGone == (c.status.instance.value !in w.pods)
    && (!s.instanceGone ==> TrueOfIdle(w, s))
  }

  ghost predicate TrueOfIdle(w: World, s: Seen) {
    && w.turn.Some?
    && var c := w.turn.value.claim;
    && s.first == ReadIn(w)
    && (FoundIdle(c, s) ==> TrueOfTenantPod(w, s))
    && (s.first.Found? && s.first.wl.timeout > 0 && LastSeen(c).Some? ==> s.now == w.now)
  }

  lemma SameRoute(w: World, w': World, s: Seen)
    requires w.turn.Some? && w'.turn.Some? && CopyIn(w') == CopyIn(w) && SameObjects(w, w') && w'.now == w.now
    requires TrueOfRoute(w', s)
    ensures TrueOfRoute(w, s)
  {
  }

  /** Truth about the tenant's pod is not changed by reading the workload. */
  lemma SameTruth(w: World, w': World, s: Seen)
    requires w.turn.Some? && w'.turn.Some? && CopyIn(w') == CopyIn(w) && w'.pods == w.pods
    requires TrueOfTenantPod(w', s)
    ensures TrueOfTenantPod(w, s)
  {
  }

  /** The last act of an ending: dropping the finalizer of a deleted claim, or writing Released. */
  ghost predicate Closes(w: World, last: Act) {
    && Ending(w)
    && var t := w.turn.value;
    && (last == CUnfinalize ==> t.claim.deleting && t.claim.finalizer)
    && (last != CUnfinalize ==>
          && !t.claim.deleting && t.claim.finalizer && t.claim.status.phase == Active
          && last == CStatus(t.claim.status.(phase := Released, detail := IdleTimeout(TurnAction(t)))))
  }

  lemma ClosesStays(w: World, w': World, last: Act)
    requires Closes(w, last) && w'.turn == w.turn && w'.now >= w.now
    ensures Closes(w', last)
  {
  }

  /** A pod that must be saved may be extracted; any other may be deleted. */
  lemma SaveOrDelete(w: World, p: string, last: Act)
    requires Closes(w, last) && Live(w) && Mine(w, p, w.turn.value.claim.key) && w.turn.value.saved == map[]
    ensures if MustSave(w) then Extractable(w, p) else MayDelete(w, p, Reap)
  {
  }

  lemma IdleCloses(w: World, wl: Workload)
    requires w.turn.Some? && w.turn.value.views == [Found(wl)] && wl.timeout > 0
    requires var c := w.turn.value.claim;
             && !c.deleting && c.finalizer && c.status.phase == Active
             && LastSeen(c).Some? && w.now - LastSeen(c).value >= wl.timeout
    ensures Closes(w, ReleasedAct(w.turn.value.claim, Resolve(wl.action)))
    ensures TurnAction(w.turn.value) == Resolve(wl.action)
  {
  }

  lemma FailedMayBeWritten(w: World, w': World, p: string)
    requires w.turn.Some? && w.turn.value.saved == map[] && Extracting(w, w', p, FailedClean)
    requires Closes(w, ReleasedAct(w.turn.value.claim, Hibernate))
    ensures w'.turn.Some? && w'.turn.value.claim == w.turn.value.claim
    ensures MayWrite(w', w.turn.value.claim.status.(phase := ReleaseFailed, detail := ExtractFailed))
  {
    var t' := w'.turn.value;
    assert ToReleaseFailed(w', t', t'.claim.status.(phase := ReleaseFailed, detail := ExtractFailed));
  }

  lemma AfterSecondRead(w: World, w': World, p: string, read: Read)
    requires w.turn.Some? && |w.turn.value.views| == 1 && TurnAction(w.turn.value) == Hibernate && w.snapshots
    requires w'.turn == Some(w.turn.value.(views := w.turn.value.views + [read]))
    requires w'.snapshots == w.snapshots && w'.now >= w.now && Keeps(w, w')
    requires Closes(w, ReleasedAct(w.turn.value.claim, Hibernate))
    requires Mine(w, p, w.turn.value.claim.key) && TenantPods(w, w.turn.value.claim.key) == {p}
    ensures Closes(w', ReleasedAct(w.turn.value.claim, Hibernate))
    ensures Mine(w', p, w.turn.value.claim.key) && TenantPods(w', w.turn.value.claim.key) <= {p}
    ensures MustSave(w') <==> read.Found? && read.wl.overlay
  {
    KeepsPods(w, w', w.turn.value.claim.key);
    KeepsMine(w, w', p, w.turn.value.claim.key);
    assert w'.turn.value.views[0] == w.turn.value.views[0];
  }

  lemma ClosesAfterExtracting(w: World, w': World, p: string, last: Act)
    requires Closes(w, last) && Extracting(w, w', p, Stored)
    ensures Closes(w', last) && MayDelete(w', p, Reap)
  {
  }

  /** Several acts, then a plan. */
  lemma ChainAll(own: seq<Act>, acts: seq<Act>, rest: Plan, own': seq<Act>)
    requires own' == own + acts + rest.acts
    ensures own' == own + Prepend(acts, rest).acts
  {
    assert own + acts + rest.acts == own + (acts + rest.acts);
  }

  /** The answers collected while a tenancy is ended. */
  ghost predicate EndAnswers(s: Seen, s': Seen) {
    s' == s.(extractions := s'.extractions, dropped := s'.dropped, podDeleted := s'.podDeleted,
             revoked := s'.revoked, wrote := s'.wrote)
  }

  /** What extractWithRetry is called with: a path that must save the overlay, and a pod of the claim
      whose overlay was not saved yet. */
  ghost predicate Extractable(w: World, p: string) {
    && Live(w) && Ending(w) && MustSave(w)
    && Mine(w, p, w.turn.value.claim.key) && p !in w.turn.value.saved
  }

  /** What attempts to extract p change: only whether p is saved. */
  ghost predicate Extracting(w: World, w': World, p: string, x: Extraction) {
    && Live(w') && Ending(w') && MustSave(w') && Keeps(w, w') && NamesInv(w)
    && w.turn.Some? && Mine(w', p, w'.turn.value.claim.key)
    && SavedMore(w.turn.value, w'.turn.value, p, x) && w'.snapshots == w.snapshots
  }

  lemma NothingExtracted(w: World, p: string)
    requires Extractable(w, p) && NamesInv(w)
    ensures Extracting(w, w, p, FailedClean)
  {
  }

  lemma ExtractingTwice(w: World, w': World, w'': World, p: string, x: Extraction)
    requires Extracting(w, w', p, FailedClean) && Extracting(w', w'', p, x)
    ensures Extracting(w, w'', p, x)
    ensures x != Stored && p !in w.turn.value.saved ==> Extractable(w'', p) && Extracting(w, w'', p, FailedClean)
  {
    SteadyTrans(w, w', w'');
  }

  /** How the attempts of extractWithRetry end. */
  ghost predicate Retried(xs: seq<Extraction>, scheduled: nat, ok: bool, cancelled: bool) {
    && 0 < |xs| <= scheduled
    && (ok <==> xs[|xs| - 1] == Stored)
    && (forall i :: 0 <= i < |xs| - 1 ==> xs[i] != Stored)
    && (!ok && !cancelled ==> |xs| == scheduled)
  }

  /** The answers handleNewClaim collects. */
  ghost predicate NewAnswers(s: Seen, s': Seen) {
    OnlyGot(s.(first := s'.first, tenantPod := s'.tenantPod, podDeleted := s'.podDeleted), s')
  }

  /** In an undisturbed cluster the answers about the workload and the tenant's pod are the truth. */
  ghost predicate TrueOfPending(w: World, s: Seen) {
    && w.turn.Some? && s.first == ReadIn(w)
    && (s.first.Found? && s.first.wl.ready ==> TrueOfTenantPod(w, s))
  }

  ghost function CopyIn(w: World): Claim
    requires w.turn.Some?
  {
    w.turn.value.claim
  }

  /** One act, then a plan: together the longer plan. */
  lemma Chain(own: seq<Act>, a: Act, rest: Plan, own': seq<Act>)
    requires own' == own + [a] + rest.acts
    ensures own' == own + Then(a, rest).acts
  {
    assert own + [a] + rest.acts == own + ([a] + rest.acts);
  }

  const DEFAULT_BACKOFF: seq<nat> := [1, 4, 16]

  class ClaimReconciler {
    const client: ClaimClient
    const backoff: seq<nat>

    ghost predicate Valid()
      reads this, client, client.api
    {
      client.Valid()
    }

    ghost function Current(): World
      reads this, client, client.api
    {
      client.api.world
    }

    /** The reconcile's copy of its claim. */
    ghost function Copy(): Claim
      requires Current().turn.Some?
      reads this, client, client.api
    {
      CopyIn(Current())
    }

    /** What was done since is the plan for the answers that came. */
    twostate predicate Followed(plan: Plan, res: Outcome)
      reads this, client, client.api
    {
      client.Own() == old(client.Own()) + plan.acts && res == plan.result
    }

    constructor (client: ClaimClient, backoff: seq<nat>)
      ensures this.client == client && this.backoff == backoff
    {
      this.client, this.backoff := client, backoff;
    }

    function Schedule(): (s: seq<nat>)
      ensures |s| > 0
    {
      if |backoff| == 0 then DEFAULT_BACKOFF else backoff
    }

    // ---- claim_activate.go -------------------------------------------------------

    /** activateClaim for a pod without an IP: remember the pod and how it was obtained. */
    method StashPod(p: PodRef, source: Source) returns (res: Outcome)
      requires Valid() && client.open && Live(Current()) && Activatable(Current(), p, source) && p.pod.ip == ""
      modifies client`seen, client`open, client.api
      ensures Valid() && client.seen == old(client.seen).(wrote := client.seen.wrote)
      ensures Followed(ActivatePlan(old(Copy()), p, source, client.seen), res)
    {
      hide Legal, Inv, Exec, By, Enabled, Apply;
      var claim := client.api.world.turn.value.claim;
      res := After(1);
      if claim.status.source != source || claim.status.instance != Some(p.name) {
        StashMayBeWritten(Current(), p, source);
        var ok := client.UpdateStatus(claim.status.(source := source, instance := Some(p.name)));
        if !ok {
          res := Fail;
        }
      }
    }

    /** activateClaim for a pod with an IP. */
    method MakeActive(p: PodRef, source: Source) returns (res: Outcome)
      requires Valid() && client.open && Live(Current()) && Activatable(Current(), p, source) && p.pod.ip != ""
      modifies client`seen, client`open, client.api
      ensures Valid()
      ensures client.seen == old(client.seen).(now := client.seen.now, wrote := client.seen.wrote)
      ensures Followed(ActivatePlan(old(Copy()), p, source, client.seen), res)
    {
      hide Legal, Inv, Exec, By, Enabled, Apply;
      var claim := client.api.world.turn.value.claim;
      var now := client.Now();
      var kept := source;
      if source == Existing && claim.status.source != NoSource && claim.status.source != Existing {
        kept := claim.status.source;
      }
      var st := Status(Active, Some(p.name), Some(Endpoint(p.pod.ip, p.pod.port)), kept, Some(now), NoDetail);
      assert st == ActiveStatus(claim.status, p, source, now);
      ActiveMayBeWritten(Current(), p, source);
      var ok := client.UpdateStatus(st);
      res := if ok then After(IDLE_CHECK_INTERVAL) else Fail;
    }

    method ActivateClaim(p: PodRef, source: Source) returns (res: Outcome)
      requires Valid() && client.open && Live(Current()) && Activatable(Current(), p, source)
      modifies client`seen, client`open, client.api
      ensures Valid()
      ensures client.seen == old(client.seen).(now := client.seen.now, wrote := client.seen.wrote)
      ensures Followed(ActivatePlan(old(Copy()), p, source, client.seen), res)
    {
      hide Legal, Inv, Exec, By, Enabled, Apply;
      if p.pod.ip == "" {
        res := StashPod(p, source);
      } else {
        res := MakeActive(p, source);
      }
    }

    // ---- claim_pods.go -----------------------------------------------------------

    method ClaimFromPool(p: PodRef) returns (res: Outcome)
      requires Valid() && client.open && Live(Current()) && Beginning(Current()) && KnownPod(Current(), p.name, p.pod)
      requires TenantPods(Current(), Copy().key) == {}
      requires p.pod.status == Ready && p.pod.workload == Copy().key.workload
      requires client.api.calm ==> Unchanged(Current(), p)
      modifies client`seen, client`open, client.api
      ensures Valid() && OnlyGot(old(client.seen), client.seen)
      ensures client.seen.got.poolPod == old(client.seen).got.poolPod
      ensures Followed(FromPoolPlan(old(Copy()), p, client.seen), res)
    {
      hide Legal, Inv, Exec, By, Enabled, Apply;
      ghost var claim, own := Copy(), client.Own();
      var ok := client.AcquirePod(p);
      if !ok {
        return Fail;
      }
      res := InjectAndActivate(p);
      Chain(own, CAcquire(p.name), InjectPlan(claim, p, client.seen), client.Own());
    }

    /** The second half of claimFromPool: inject the stored snapshot if there is one, then activate. */
    method InjectAndActivate(p: PodRef) returns (res: Outcome)
      requires Valid() && client.open && Live(Current()) && Beginning(Current()) && Mine(Current(), p.name, Copy().key)
      requires Injectee(Current(), p.name)
      modifies client`seen, client`open, client.api
      ensures Valid() && OnlyGot(old(client.seen), client.seen)
      ensures client.seen.got == old(client.seen).got.(hasSnapshot := client.seen.got.hasSnapshot,
                injected := client.seen.got.injected, junk := client.seen.got.junk)
      ensures Followed(InjectPlan(old(Copy()), p, client.seen), res)
    {
      hide Legal, Inv, Exec, By, Enabled, Apply, ActivatePlan;
      var has := client.HasSnapshot();
      InjecteeStays(old(Current()), Current(), p.name);
      if has {
        res := InjectThenActivate(p);
      } else {
        res := ActivateClaim(p, FromPool);
      }
    }

    /** There is a snapshot. */
    method InjectThenActivate(p: PodRef) returns (res: Outcome)
      requires Valid() && client.open && Live(Current()) && Beginning(Current()) && Mine(Current(), p.name, Copy().key)
      requires Injectee(Current(), p.name) && client.seen.got.hasSnapshot
      modifies client`seen, client`open, client.api
      ensures Valid() && OnlyGot(old(client.seen), client.seen)
      ensures client.seen.got
              == old(client.seen).got.(injected := client.seen.got.injected, junk := client.seen.got.junk)
      ensures Followed(InjectPlan(old(Copy()), p, client.seen), res)
    {
      hide Legal, Inv, Exec, By, Enabled, Apply;
      ghost var claim, own := Copy(), client.Own();
      var injected := client.Inject(p.name);
      var source := if injected then FromPoolData else FromPool;
      res := ActivateClaim(p, source);
      ghost var rest := ActivatePlan(claim, p, source, client.seen);
      Chain(own, CInject(p.name, injected, client.seen.got.junk), rest, client.Own());
    }

    method ColdBoot(wl: Workload) returns (res: Outcome)
      requires Valid() && client.open && Live(Current()) && Beginning(Current())
      requires TenantPods(Current(), Copy().key) == {}
      modifies client`seen, client`open, client.api
      ensures Valid() && OnlyGot(old(client.seen), client.seen)
      ensures client.seen.got.poolPod == old(client.seen).got.poolPod
      ensures Followed(ColdBootPlan(old(Copy()), wl, client.seen), res)
    {
      hide Legal, Inv, Exec, By, Enabled, Apply;
      if wl.apiDisabled {
        res := CreateAndActivate();
      } else {
        res := TokenAndCreate();
      }
    }

    /** Provision the token before the pod that refers to its Secret. */
    method TokenAndCreate() returns (res: Outcome)
      requires Valid() && client.open && Live(Current()) && Beginning(Current())
      requires TenantPods(Current(), Copy().key) == {}
      modifies client`seen, client`open, client.api
      ensures Valid() && OnlyGot(old(client.seen), client.seen)
      ensures client.seen.got == old(client.seen).got.(token := client.seen.got.token,
                                                       created := client.seen.got.created)
      ensures Followed(TokenPlan(old(Copy()), client.seen), res)
    {
      hide Legal, Inv, Exec, By, Enabled, Apply;
      ghost var claim, own := Copy(), client.Own();
      var token := client.EnsureToken();
      KeepsNone(old(Current()), Current(), claim.key);
      if token == TokenFailed {
        return Fail;
      }
      res := CreateAndActivate();
      if token == Minted {
        Chain(own, CMint, CreatePlan(claim, client.seen), client.Own());
      }
    }

    method CreateAndActivate() returns (res: Outcome)
      requires Valid() && client.open && Live(Current()) && Beginning(Current())
      requires TenantPods(Current(), Copy().key) == {}
      modifies client`seen, client`open, client.api
      ensures Valid() && OnlyGot(old(client.seen), client.seen)
      ensures client.seen.got == old(client.seen).got.(created := client.seen.got.created)
      ensures Followed(CreatePlan(old(Copy()), client.seen), res)
    {
      hide Legal, Inv, Exec, By, Enabled, Apply;
      ghost var claim, own := Copy(), client.Own();
      var p := client.CreatePod();
      if p.None? {
        return Fail;
      }
      res := ActivateClaim(p.value, Cold);
      Chain(own, CCreate(p.value.name), ActivatePlan(claim, p.value, Cold, client.seen), client.Own());
    }

    // ---- claim_controller.go: a claim that is not yet Active -----------------------

    /** A pool pod if one is ready, else a cold boot. */
    method ObtainPod(wl: Workload) returns (res: Outcome)
      requires Valid() && client.open && Live(Current()) && Beginning(Current())
      requires TenantPods(Current(), Copy().key) == {}
      modifies client`seen, client`open, client.api
      ensures Valid() && OnlyGot(old(client.seen), client.seen)
      ensures Followed(ObtainPlan(old(Copy()), wl, client.seen), res)
    {
      hide Legal, Inv, Exec, By, Enabled, Apply;
      ghost var k := Copy().key;
      var pool := client.FindPoolPod(client.api.world.turn.value.claim.key.workload);
      KeepsNone(old(Current()), Current(), k);
      if pool.Failed? {
        res := Fail;
      } else if pool.Got? {
        res := ClaimFromPool(pool.value);
      } else {
        res := ColdBoot(wl);
      }
    }

    /** Delete a terminal pod, then carry on as if there had been none. */
    method ReplacePod(p: PodRef, wl: Workload) returns (res: Outcome)
      requires Valid() && client.open && Live(Current()) && Beginning(Current())
      requires MayDelete(Current(), p.name, Terminal) && TenantPods(Current(), Copy().key) == {p.name}
      modifies client`seen, client`open, client.api
      ensures Valid()
      ensures OnlyGot(old(client.seen).(podDeleted := client.seen.podDeleted), client.seen)
      ensures Followed(ReplacePlan(old(Copy()), wl, p, client.seen), res)
    {
      hide Legal, Inv, Exec, By, Enabled, Apply;
      ghost var claim, own := Copy(), client.Own();
      var d := client.DeletePod(p.name, Terminal);
      if d == NotDeleted {
        return Fail;
      }
      KeepsGone(old(Current()), Current(), claim.key, p.name);
      ghost var mid := client.Own();
      res := ObtainPod(wl);
      ghost var rest := ObtainPlan(claim, wl, client.seen);
      assert client.Own() == mid + rest.acts;
      if d == Removed {
        Chain(own, CDelete(p.name, Terminal), rest, client.Own());
        assert ReplacePlan(claim, wl, p, client.seen) == Then(CDelete(p.name, Terminal), rest);
      } else {
        assert mid == own;
        assert ReplacePlan(claim, wl, p, client.seen) == rest;
      }
    }

    /** What to do with the pod the tenant already has. */
    method UsePod(p: PodRef, wl: Workload) returns (res: Outcome)
      requires Valid() && client.open && Live(Current()) && Beginning(Current())
      requires TenantPods(Current(), Copy().key) == {p.name} && Mine(Current(), p.name, Copy().key)
      requires p.name in Current().pods && Current().pods[p.name] == p.pod
      modifies client`seen, client`open, client.api
      ensures Valid()
      ensures OnlyGot(old(client.seen).(podDeleted := client.seen.podDeleted), client.seen)
      ensures Followed(ExistingPodPlan(old(Copy()), wl, p, client.seen), res)
    {
      hide Legal, Inv, Exec, By, Enabled, Apply;
      if p.pod.phase == PodRunning {
        res := ActivateClaim(p, Existing);
      } else if p.pod.phase == PodFailed || p.pod.phase == PodSucceeded {
        res := ReplacePod(p, wl);
      } else {
        res := After(2);
      }
    }

    method PodForClaim(wl: Workload) returns (res: Outcome)
      requires Valid() && client.open && Live(Current()) && Beginning(Current())
      modifies client`seen, client`open, client.api
      ensures Valid()
      ensures OnlyGot(old(client.seen).(tenantPod := client.seen.tenantPod, podDeleted := client.seen.podDeleted),
                      client.seen)
      ensures Followed(PodForClaimPlan(old(Copy()), wl, client.seen), res)
      ensures client.api.calm ==> TrueOfTenantPod(old(Current()), client.seen)
    {
      hide Legal, Inv, Exec, By, Enabled, Apply;
      var pod := client.FindTenantPod(client.api.world.turn.value.claim.key);
      match pod
      case Failed => res := Fail;
      case Absent => res := ObtainPod(wl);
      case Got(p) => res := UsePod(p, wl);
    }

    /** Set the phase to Error with a detail. */
    method SetClaimError(detail: Detail) returns (res: Outcome)
      requires Valid() && client.open && Live(Current()) && !Copy().deleting && Copy().finalizer
      requires ToError(Current().turn.value, Copy().status.(phase := Error, detail := detail))
      modifies client`seen, client`open, client.api
      ensures Valid() && client.seen == old(client.seen).(wrote := client.seen.wrote)
      ensures Followed(Write(CStatus(old(Copy()).status.(phase := Error, detail := detail)), Done, client.seen), res)
    {
      hide Legal, Inv, Exec, By, Enabled, Apply;
      var ok := client.UpdateStatus(client.api.world.turn.value.claim.status.(phase := Error, detail := detail));
      res := if ok then Done else Fail;
    }

    /** handleNewClaim once the claim has its finalizer and is Pending. */
    method ServePendingClaim() returns (res: Outcome)
      requires Valid() && client.open && Live(Current()) && Current().turn.value.views == []
      requires !Copy().deleting && Copy().finalizer && Copy().status.phase == Pending
      modifies client`seen, client`open, client.api
      ensures Valid()
      ensures NewAnswers(old(client.seen), client.seen)
      ensures Followed(PendingPlan(old(Copy()), client.seen), res)
      ensures client.api.calm ==> TrueOfPending(old(Current()), client.seen)
    {
      hide Legal, Inv, Exec, By, Enabled, Apply;
      ghost var claim, own := Copy(), client.Own();
      var read := client.GetWorkload(false);
      ghost var mid := Current();
      match read
      case Missing =>
        res := SetClaimError(WorkloadNotFound);
        Chain(own, CRead(read), WorkloadPlan(claim, client.seen), client.Own());
      case Unreadable =>
        res := Fail;
        assert client.Own() == own + Then(CRead(read), Plan([], Fail)).acts;
      case Found(wl) =>
        if wl.ready {
          res := PodForClaim(wl);
        } else {
          res := SetClaimError(WorkloadNotReady);
        }
        Chain(own, CRead(read), WorkloadPlan(claim, client.seen), client.Own());
    }

    method HandleNewClaim() returns (res: Outcome)
      requires Valid() && client.open && Live(Current()) && Current().turn.value.views == []
      requires !Copy().deleting && Fresh(Copy().status.phase)
      modifies client`seen, client`open, client.api
      ensures Valid()
      ensures NewAnswers(old(client.seen), client.seen)
      ensures Followed(NewClaimPlan(old(Copy()), client.seen), res)
      ensures client.api.calm && CopyIn(old(Current())).finalizer && CopyIn(old(Current())).status.phase == Pending ==>
                TrueOfPending(old(Current()), client.seen)
    {
      hide Legal, Inv, Exec, By, Enabled, Apply;
      var claim := client.api.world.turn.value.claim;
      if !claim.finalizer {
        var ok := client.AddFinalizer();
        res := if ok then Requeue else Fail;
      } else if claim.status.phase != Pending {
        var ok := client.UpdateStatus(claim.status.(phase := Pending));
        res := if ok then Requeue else Fail;
      } else {
        res := ServePendingClaim();
      }
    }

    // ---- claim_release.go --------------------------------------------------------------

    /** One attempt of extractWithRetry, after some that failed. */
    method Attempt(p: string, ghost start: World, ghost own: seq<Act>) returns (x: Extraction)
      requires Valid() && client.open && Extractable(Current(), p) && Extracting(start, Current(), p, FailedClean)
      requires p !in start.turn.value.saved
      requires client.Own() == own + ExtractActs(p, client.seen.extractions)
      modifies client`seen, client.api
      ensures Valid() && client.seen == old(client.seen).(extractions := old(client.seen).extractions + [x])
      ensures client.Own() == own + ExtractActs(p, client.seen.extractions)
      ensures Extracting(start, Current(), p, x)
      ensures x != Stored ==> Extractable(Current(), p) && Extracting(start, Current(), p, FailedClean)
    {
      hide Legal, Inv, Exec, By, Enabled, Apply;
      x := client.ExtractAndStore(p);
      KeepsMine(old(Current()), Current(), p, CopyIn(old(Current())).key);
      ExtractActsNext(p, old(client.seen).extractions, x);
      assert client.Own() == own + ExtractActs(p, old(client.seen).extractions + [x]);
      ExtractingTwice(start, old(Current()), Current(), p, x);
    }

    /** Extract with bounded retries: success exactly when an attempt succeeds, which is then the last;
        otherwise every scheduled attempt was made, unless the context was cancelled during a sleep.
        The time slept is the sum of the backoffs before the last attempt. */
    method ExtractWithRetry(p: string) returns (ok: bool, cancelled: bool, slept: nat)
      requires Valid() && client.open && Extractable(Current(), p) && client.seen.extractions == []
      modifies client`seen, client.api
      ensures Valid() && client.seen == old(client.seen).(extractions := client.seen.extractions)
      ensures client.Own() == old(client.Own()) + ExtractActs(p, client.seen.extractions)
      ensures Retried(client.seen.extractions, |Schedule()|, ok, cancelled)
      ensures slept == Sum(Schedule()[..|client.seen.extractions| - 1])
      ensures |Schedule()| == if |backoff| == 0 then 3 else |backoff|
      ensures |backoff| == 0 ==> slept == if |client.seen.extractions| == 1 then 0
                                          else if |client.seen.extractions| == 2 then 1 else 5
      ensures client.api.calm ==> !cancelled
      ensures Extracting(old(Current()), Current(), p, if ok then Stored else FailedClean)
    {
      hide Legal, Inv, Exec, By, Enabled, Apply;
      var backoff := Schedule();
      ghost var own, start := client.Own(), Current();
      client.api.NamesHold();
      NothingExtracted(start, p);
      ok, cancelled, slept := false, false, 0;
      var i, more := 0, true;
      while more
        invariant 0 <= i < |backoff|
        invariant Valid() && Extracting(start, Current(), p, if ok then Stored else FailedClean)
        invariant client.seen == old(client.seen).(extractions := client.seen.extractions)
        invariant client.Own() == own + ExtractActs(p, client.seen.extractions)
        invariant slept == Sum(backoff[..i]) && (client.api.calm ==> !cancelled)
        invariant more ==> Extractable(Current(), p) && |client.seen.extractions| == i
                           && !ok && !cancelled && Stored !in client.seen.extractions
        invariant !more ==> |client.seen.extractions| == i + 1
                            && Retried(client.seen.extractions, |backoff|, ok, cancelled)
        decreases |backoff| - i, more
      {
        var x := Attempt(p, start, own);
        if x == Stored {
          ok, more := true, false;
        } else if i == |backoff| - 1 {
          more := false;
        } else {
          cancelled := client.api.Refused();
          if cancelled {
            more := false;
          } else {
            SumNext(backoff, i);
            slept, i := slept + backoff[i], i + 1;
          }
        }
      }
      DefaultSums();
    }

    /** The last write of a path that ends a tenancy: drop the finalizer, or write Released. */
    method LastWrite(last: Act) returns (res: Outcome)
      requires Valid() && client.open && Live(Current()) && Closes(Current(), last)
      requires TenantPods(Current(), Copy().key) == {} && Current().turn.value.name !in Current().secrets
      modifies client`seen, client`open, client.api
      ensures Valid() && client.seen == old(client.seen).(wrote := client.seen.wrote)
      ensures Followed(Write(last, Done, client.seen), res)
    {
      hide Legal, Inv, Exec, By, Enabled, Apply;
      var ok;
      if last.CUnfinalize? {
        ok := client.RemoveFinalizer();
      } else {
        ok := client.UpdateStatus(last.status);
      }
      res := if ok then Done else Fail;
    }

    /** Revoke the token, then write. */
    method RevokeAndFinish(last: Act) returns (res: Outcome)
      requires Valid() && client.open && Live(Current()) && Closes(Current(), last)
      requires TenantPods(Current(), Copy().key) == {}
      modifies client`seen, client`open, client.api
      ensures Valid()
      ensures client.seen == old(client.seen).(revoked := client.seen.revoked, wrote := client.seen.wrote)
      ensures Followed(RevokePlan(last, client.seen), res)
    {
      hide Legal, Inv, Exec, By, Enabled, Apply;
      ghost var own, k := client.Own(), Copy().key;
      var d := client.RevokeToken();
      if d == NotDeleted {
        return Fail;
      }
      KeepsNone(old(Current()), Current(), k);
      ClosesStays(old(Current()), Current(), last);
      ghost var mid := client.Own();
      res := LastWrite(last);
      ghost var rest := Write(last, Done, client.seen);
      assert client.Own() == mid + rest.acts;
      if d == Removed {
        Chain(own, CRevoke, rest, client.Own());
        assert RevokePlan(last, client.seen) == Then(CRevoke, rest);
      } else {
        assert RevokePlan(last, client.seen) == rest;
      }
    }

    /** Delete the tenant's pod, then revoke and finish. */
    method DeleteAndFinish(p: PodRef, last: Act) returns (res: Outcome)
      requires Valid() && client.open && Live(Current()) && Closes(Current(), last)
      requires MayDelete(Current(), p.name, Reap) && TenantPods(Current(), Copy().key) <= {p.name}
      modifies client`seen, client`open, client.api
      ensures Valid() && EndAnswers(old(client.seen), client.seen)
      ensures client.seen.dropped == old(client.seen).dropped
      ensures client.seen.extractions == old(client.seen).extractions
      ensures Followed(DeletePlan(p, last, client.seen), res)
    {
      hide Legal, Inv, Exec, By, Enabled, Apply;
      ghost var own, k := client.Own(), Copy().key;
      var d := client.DeletePod(p.name, Reap);
      if d == NotDeleted {
        return Fail;
      }
      KeepsPods(old(Current()), Current(), k);
      assert TenantPods(Current(), k) == {};
      ClosesStays(old(Current()), Current(), last);
      ghost var mid := client.Own();
      res := RevokeAndFinish(last);
      ghost var rest := RevokePlan(last, client.seen);
      assert client.Own() == mid + rest.acts;
      if d == Removed {
        Chain(own, CDelete(p.name, Reap), rest, client.Own());
        assert DeletePlan(p, last, client.seen) == Then(CDelete(p.name, Reap), rest);
      } else {
        assert DeletePlan(p, last, client.seen) == rest;
      }
    }

    /** For action destroy delete the snapshot first. */
    method RemoveAndFinish(p: PodRef, destroy: bool, last: Act) returns (res: Outcome)
      requires Valid() && client.open && Live(Current()) && Closes(Current(), last)
      requires MayDelete(Current(), p.name, Reap) && TenantPods(Current(), Copy().key) <= {p.name}
      requires destroy ==> TurnAction(Current().turn.value) == Destroy
      modifies client`seen, client`open, client.api
      ensures Valid() && EndAnswers(old(client.seen), client.seen)
      ensures client.seen.extractions == old(client.seen).extractions
      ensures Followed(RemovePlan(p, destroy, client.seen, last), res)
    {
      hide Legal, Inv, Exec, By, Enabled, Apply;
      ghost var own := client.Own();
      if destroy {
        client.DeleteSnapshot();
        KeepsPods(old(Current()), Current(), CopyIn(old(Current())).key);
        ClosesStays(old(Current()), Current(), last);
        DeletableStays(old(Current()), Current(), p.name, Reap);
        res := DeleteAndFinish(p, last);
        Chain(own, CDropSnap(client.seen.dropped), DeletePlan(p, last, client.seen), client.Own());
      } else {
        res := DeleteAndFinish(p, last);
      }
    }

    /** Remove a pod whose overlay has been stored. */
    method RemoveSaved(p: PodRef, last: Act, ghost start: World, ghost own: seq<Act>) returns (res: Outcome)
      requires Valid() && client.open && Closes(start, last) && Current().turn.Some?
      requires Extracting(start, Current(), p.name, Stored) && TenantPods(start, CopyIn(start).key) <= {p.name}
      requires client.Own() == own + ExtractActs(p.name, client.seen.extractions)
      modifies client`seen, client`open, client.api
      ensures Valid() && EndAnswers(old(client.seen), client.seen)
      ensures client.seen.extractions == old(client.seen).extractions
      ensures client.Own() == own + SavedPlan(p, client.seen, last).acts
      ensures res == SavedPlan(p, client.seen, last).result
    {
      hide Legal, Inv, Exec, By, Enabled, Apply;
      KeepsPods(start, Current(), CopyIn(start).key);
      ClosesAfterExtracting(start, Current(), p.name, last);
      ghost var mid := client.Own();
      res := DeleteAndFinish(p, last);
      ghost var rest := DeletePlan(p, last, client.seen);
      assert client.Own() == mid + rest.acts;
      ChainAll(own, ExtractActs(p.name, client.seen.extractions), rest, client.Own());
    }

    /** Store the overlay, and only then remove the pod. */
    method SaveAndRemove(p: PodRef, last: Act) returns (saved: bool, res: Outcome)
      requires Valid() && client.open && Closes(Current(), last) && Extractable(Current(), p.name)
      requires TenantPods(Current(), Copy().key) <= {p.name} && client.seen.extractions == []
      modifies client`seen, client`open, client.api
      ensures Valid() && EndAnswers(old(client.seen), client.seen)
      ensures saved == Extracted(client.seen.extractions)
      ensures saved ==> Followed(SavedPlan(p, client.seen, last), res)
      ensures !saved ==> client.Own() == old(client.Own()) + ExtractActs(p.name, client.seen.extractions)
      ensures !saved ==> Extracting(old(Current()), Current(), p.name, FailedClean) && client.open
    {
      hide Legal, Inv, Exec, By, Enabled, Apply;
      ghost var own, start := client.Own(), Current();
      var ok, _, _ := ExtractWithRetry(p.name);
      saved := ok;
      res := Fail;
      if saved {
        res := RemoveSaved(p, last, start, own);
      }
    }

    /** handleDeletion: what becomes of the tenant's pod. */
    method DeletionPod(p: PodRef) returns (res: Outcome)
      requires Valid() && client.open && Live(Current()) && Closes(Current(), CUnfinalize)
      requires Mine(Current(), p.name, Copy().key) && TenantPods(Current(), Copy().key) == {p.name}
      requires Current().turn.value.views == [client.seen.first] && Current().turn.value.saved == map[]
      requires client.seen.extractions == []
      modifies client`seen, client`open, client.api
      ensures Valid() && EndAnswers(old(client.seen), client.seen)
      ensures Followed(DeletionPodPlan(p, old(Current()).snapshots, client.seen), res)
    {
      hide Legal, Inv, Exec, By, Enabled, Apply;
      SaveOrDelete(Current(), p.name, CUnfinalize);
      var read := client.api.world.turn.value.views[0];
      var action := if read.Found? && read.wl.action != Unset then read.wl.action else Hibernate;
      var snapshots := client.api.world.snapshots;
      if action == Hibernate && snapshots && read.Found? && read.wl.overlay {
        res := SaveForDeletion(p);
      } else {
        res := RemoveAndFinish(p, action == Destroy && snapshots, CUnfinalize);
      }
    }

    method SaveForDeletion(p: PodRef) returns (res: Outcome)
      requires Valid() && client.open && Closes(Current(), CUnfinalize) && Extractable(Current(), p.name)
      requires TenantPods(Current(), Copy().key) <= {p.name} && client.seen.extractions == []
      modifies client`seen, client`open, client.api
      ensures Valid() && EndAnswers(old(client.seen), client.seen)
      ensures Followed(SavePlan(p, client.seen, CUnfinalize, Plan([], After(RELEASE_FAILED_REQUEUE))), res)
    {
      hide Legal, Inv, Exec, By, Enabled, Apply;
      ghost var own := client.Own();
      var saved;
      saved, res := SaveAndRemove(p, CUnfinalize);
      if !saved {
        res := After(RELEASE_FAILED_REQUEUE);
        ChainAll(own, ExtractActs(p.name, client.seen.extractions), Plan([], res), client.Own());
      }
    }

    /** handleDeletion after the Get of the workload. */
    method Finalize() returns (res: Outcome)
      requires Valid() && client.open && Live(Current()) && Closes(Current(), CUnfinalize)
      requires Current().turn.value.views == [client.seen.first] && Current().turn.value.saved == map[]
      requires client.seen.extractions == []
      modifies client`seen, client`open, client.api
      ensures Valid() && EndAnswers(old(client.seen).(tenantPod := client.seen.tenantPod), client.seen)
      ensures Followed(FinalizePlan(old(Current()).snapshots, client.seen), res)
      ensures client.api.calm ==> TrueOfTenantPod(old(Current()), client.seen)
    {
      hide Legal, Inv, Exec, By, Enabled, Apply, MustSave, Ending, MayWrite, Keeps, KnownClaim;
      var pod := client.FindTenantPod(client.api.world.turn.value.claim.key);
      ClosesStays(old(Current()), Current(), CUnfinalize);
      match pod
      case Failed => res := Fail;
      case Absent => res := RevokeAndFinish(CUnfinalize);
      case Got(p) => res := DeletionPod(p);
    }

    method HandleDeletion() returns (res: Outcome)
      requires Valid() && client.open && Live(Current()) && Copy().deleting
      requires Current().turn.value.views == [] && Current().turn.value.saved == map[]
      requires client.seen.extractions == []
      modifies client`seen, client`open, client.api
      ensures Valid()
      ensures EndAnswers(old(client.seen).(first := client.seen.first, tenantPod := client.seen.tenantPod), client.seen)
      ensures Followed(DeletionPlan(old(Copy()), old(Current()).snapshots, client.seen), res)
      ensures client.api.calm && old(Copy()).finalizer ==> TrueOfDeletion(old(Current()), client.seen)
    {
      hide Legal, Inv, Exec, By, Enabled, Apply;
      if !client.api.world.turn.value.claim.finalizer {
        return Done;
      }
      ghost var own, snapshots := client.Own(), Current().snapshots;
      var read := client.GetWorkload(false);
      assert Current().turn.value.views == [read];
      ghost var mid := Current();
      res := Finalize();
      if client.api.calm {
        SameTruth(old(Current()), mid, client.seen);
      }
      Chain(own, CRead(read), FinalizePlan(snapshots, client.seen), client.Own());
    }

    /** Idle release with hibernation: store the overlay before the pod goes. */
    method HibernatePod(p: PodRef, read: Read) returns (res: Outcome)
      requires Valid() && client.open && Live(Current()) && Closes(Current(), ReleasedAct(Copy(), Hibernate))
      requires Mine(Current(), p.name, Copy().key) && TenantPods(Current(), Copy().key) <= {p.name}
      requires Current().turn.value.saved == map[] && client.seen.extractions == [] && read == client.seen.second
      requires MustSave(Current()) <==> read.Found? && read.wl.overlay
      modifies client`seen, client`open, client.api
      ensures Valid() && EndAnswers(old(client.seen), client.seen)
      ensures Followed(HibernatePlan(old(Copy()), p, client.seen), res)
    {
      hide Legal, Inv, Exec, By, Enabled, Apply;
      var claim := client.api.world.turn.value.claim;
      SaveOrDelete(Current(), p.name, ReleasedAct(claim, Hibernate));
      if read.Found? && read.wl.overlay {
        res := SaveForRelease(p);
      } else {
        res := RemoveAndFinish(p, false, ReleasedAct(claim, Hibernate));
      }
    }

    method SaveForRelease(p: PodRef) returns (res: Outcome)
      requires Valid() && client.open && Live(Current()) && Closes(Current(), ReleasedAct(Copy(), Hibernate))
      requires Extractable(Current(), p.name)
      requires TenantPods(Current(), Copy().key) <= {p.name} && Current().turn.value.saved == map[]
      requires client.seen.extractions == []
      modifies client`seen, client`open, client.api
      ensures Valid() && EndAnswers(old(client.seen), client.seen)
      ensures Followed(SavePlan(p, client.seen, ReleasedAct(old(Copy()), Hibernate),
                                ReleaseFailedPlan(old(Copy()), client.seen)), res)
    {
      hide Legal, Inv, Exec, By, Enabled, Apply;
      ghost var own := client.Own();
      var claim := client.api.world.turn.value.claim;
      var saved;
      saved, res := SaveAndRemove(p, ReleasedAct(claim, Hibernate));
      if !saved {
        FailedMayBeWritten(old(Current()), Current(), p.name);
        res := MarkReleaseFailed();
        ChainAll(own, ExtractActs(p.name, client.seen.extractions), ReleaseFailedPlan(claim, client.seen),
                 client.Own());
      }
    }

    /** Transition to ReleaseFailed; the pod is not touched. */
    method MarkReleaseFailed() returns (res: Outcome)
      requires Valid() && client.open && Live(Current())
      requires MayWrite(Current(), Copy().status.(phase := ReleaseFailed, detail := ExtractFailed))
      modifies client`seen, client`open, client.api
      ensures Valid() && client.seen == old(client.seen).(wrote := client.seen.wrote)
      ensures Followed(ReleaseFailedPlan(old(Copy()), client.seen), res)
    {
      hide Legal, Inv, Exec, By, Enabled, Apply;
      var claim := client.api.world.turn.value.claim;
      var ok := client.UpdateStatus(claim.status.(phase := ReleaseFailed, detail := ExtractFailed));
      res := if ok then After(RELEASE_FAILED_REQUEUE) else Fail;
    }

    /** releaseClaim: what becomes of the tenant's pod. */
    method ReleasePod(p: PodRef, action: Action) returns (res: Outcome)
      requires Valid() && client.open && Live(Current()) && Closes(Current(), ReleasedAct(Copy(), action))
      requires Mine(Current(), p.name, Copy().key) && TenantPods(Current(), Copy().key) == {p.name}
      requires |Current().turn.value.views| == 1 && Current().turn.value.saved == map[]
      requires action == TurnAction(Current().turn.value) && client.seen.extractions == []
      modifies client`seen, client`open, client.api
      ensures Valid() && EndAnswers(old(client.seen).(second := client.seen.second), client.seen)
      ensures Followed(ReleasePodPlan(old(Copy()), p, action, old(Current()).snapshots, client.seen), res)
    {
      hide Legal, Inv, Exec, By, Enabled, Apply;
      ghost var claim, own := Copy(), client.Own();
      var snapshots := client.api.world.snapshots;
      if action == Hibernate && snapshots {
        var read := client.GetWorkload(true);
        AfterSecondRead(old(Current()), Current(), p.name, read);
        res := HibernatePod(p, read);
        Chain(own, CRead(read), HibernatePlan(claim, p, client.seen), client.Own());
      } else {
        SaveOrDelete(Current(), p.name, ReleasedAct(claim, action));
        res := RemoveAndFinish(p, action == Destroy && snapshots,
                               ReleasedAct(client.api.world.turn.value.claim, action));
      }
    }

    method ReleaseClaim(action: Action) returns (res: Outcome)
      requires Valid() && client.open && Live(Current()) && Closes(Current(), ReleasedAct(Copy(), action))
      requires |Current().turn.value.views| == 1 && Current().turn.value.saved == map[]
      requires action == TurnAction(Current().turn.value) && client.seen.extractions == []
      modifies client`seen, client`open, client.api
      ensures Valid()
      ensures EndAnswers(old(client.seen).(tenantPod := client.seen.tenantPod, second := client.seen.second),
                         client.seen)
      ensures Followed(ReleasePlan(old(Copy()), action, old(Current()).snapshots, client.seen), res)
      ensures client.api.calm ==> TrueOfTenantPod(old(Current()), client.seen)
    {
      hide Legal, Inv, Exec, By, Enabled, Apply, MustSave, Ending, MayWrite, Keeps, KnownClaim;
      var claim := client.api.world.turn.value.claim;
      var pod := client.FindTenantPod(claim.key);
      ClosesStays(old(Current()), Current(), ReleasedAct(claim, action));
      match pod
      case Failed => res := Fail;
      case Absent => res := RevokeAndFinish(ReleasedAct(claim, action));
      case Got(p) => res := ReleasePod(p, action);
    }

    // ---- claim_activate.go: idle monitoring ------------------------------------------------

    /** The claim's pod is gone: Released, so that a new trigger makes a fresh claim. */
    method ReleaseGone() returns (res: Outcome)
      requires Valid() && client.open && Live(Current()) && !Copy().deleting && ClaimOk(Current(), Copy())
      requires Copy().status.phase == Active && Copy().status.instance.value !in Current().pods
      modifies client`seen, client`open, client.api
      ensures Valid() && client.seen == old(client.seen).(wrote := client.seen.wrote)
      ensures Followed(Write(CStatus(old(Copy()).status.(phase := Released, detail := PodGone, endpoint := None)),
                             Done, client.seen), res)
    {
      hide Legal, Inv, Exec, By, Enabled, Apply;
      var claim := client.api.world.turn.value.claim;
      var ok := client.UpdateStatus(claim.status.(phase := Released, detail := PodGone, endpoint := None));
      res := if ok then Done else Fail;
    }

    /** handleActive after the Get of the workload. */
    method CheckIdle(wl: Workload) returns (res: Outcome)
      requires Valid() && client.open && Live(Current())
      requires !Copy().deleting && Copy().finalizer && Copy().status.phase == Active
      requires Current().turn.value.views == [Found(wl)] && client.seen.first == Found(wl)
      requires Current().turn.value.saved == map[] && client.seen.extractions == []
      modifies client`seen, client`open, client.api
      ensures Valid()
      ensures EndAnswers(old(client.seen).(tenantPod := client.seen.tenantPod, second := client.seen.second,
                                           now := client.seen.now), client.seen)
      ensures Followed(IdlePlan(old(Copy()), old(Current()).snapshots, client.seen), res)
      ensures wl.timeout > 0 && LastSeen(old(Copy())).Some? ==> client.seen.now == old(Current()).now
      ensures client.api.calm && FoundIdle(old(Copy()), client.seen) ==> TrueOfTenantPod(old(Current()), client.seen)
    {
      hide Legal, Inv, Exec, By, Enabled, Apply;
      var claim := client.api.world.turn.value.claim;
      var lastActivity := if claim.lastActivity.Some? then claim.lastActivity else claim.status.claimedAt;
      if wl.timeout <= 0 {
        res := Done;
      } else if lastActivity.None? {
        res := After(IDLE_CHECK_INTERVAL);
      } else {
        res := CheckElapsed(wl, lastActivity.value);
      }
    }

    /** The idle deadline itself. */
    method CheckElapsed(wl: Workload, lastActivity: int) returns (res: Outcome)
      requires Valid() && client.open && Live(Current())
      requires !Copy().deleting && Copy().finalizer && Copy().status.phase == Active
      requires Current().turn.value.views == [Found(wl)] && wl.timeout > 0 && LastSeen(Copy()) == Some(lastActivity)
      requires Current().turn.value.saved == map[] && client.seen.extractions == []
      modifies client`seen, client`open, client.api
      ensures Valid()
      ensures EndAnswers(old(client.seen).(tenantPod := client.seen.tenantPod, second := client.seen.second,
                                           now := client.seen.now), client.seen)
      ensures Followed(ElapsedPlan(old(Copy()), wl, lastActivity, old(Current()).snapshots, client.seen), res)
      ensures client.seen.now == old(Current()).now
      ensures client.api.calm && client.seen.now - lastActivity >= wl.timeout ==>
                TrueOfTenantPod(old(Current()), client.seen)
    {
      hide Legal, Inv, Exec, By, Enabled, Apply, TrueOfTenantPod;
      var now := client.Now();
      var elapsed := now - lastActivity;
      if elapsed >= wl.timeout {
        IdleCloses(Current(), wl);
        res := ReleaseClaim(if wl.action == Unset then Hibernate else wl.action);
      } else {
        res := After(wl.timeout - elapsed);
      }
    }

    method HandleActive() returns (res: Outcome)
      requires Valid() && client.open && Live(Current()) && !Copy().deleting && ClaimOk(Current(), Copy())
      requires Copy().status.phase == Active
      requires Current().turn.value.views == [] && Current().turn.value.saved == map[]
      requires client.seen.extractions == []
      modifies client`seen, client`open, client.api
      ensures Valid() && ActiveAnswers(old(client.seen), client.seen)
      ensures Followed(ActivePlan(old(Copy()), old(Current()).snapshots, client.seen), res)
      ensures client.api.calm ==> TrueOfActive(old(Current()), client.seen)
    {
      hide Legal, Inv, Exec, By, Enabled, Apply, TrueOfTenantPod, TrueOfIdle;
      var gone := client.InstanceGone(client.api.world.turn.value.claim.status.instance.value);
      if gone {
        client.ClaimHolds();
        res := ReleaseGone();
      } else {
        res := MonitorIdle();
      }
    }

    /** What follows the Get of the workload. */
    method CheckRead(read: Read) returns (res: Outcome)
      requires Valid() && client.open && Live(Current())
      requires !Copy().deleting && Copy().finalizer && Copy().status.phase == Active
      requires Current().turn.value.views == [read] && client.seen.first == read
      requires Current().turn.value.saved == map[] && client.seen.extractions == []
      modifies client`seen, client`open, client.api
      ensures Valid()
      ensures EndAnswers(old(client.seen).(tenantPod := client.seen.tenantPod, second := client.seen.second,
                                           now := client.seen.now), client.seen)
      ensures Followed(IdlePlan(old(Copy()), old(Current()).snapshots, client.seen), res)
      ensures read.Found? && read.wl.timeout > 0 && LastSeen(old(Copy())).Some? ==>
                client.seen.now == old(Current()).now
      ensures client.api.calm && FoundIdle(old(Copy()), client.seen) ==> TrueOfTenantPod(old(Current()), client.seen)
    {
      hide Legal, Inv, Exec, By, Enabled, Apply, TrueOfTenantPod;
      match read
      case Missing => res := Done;
      case Unreadable => res := Fail;
      case Found(wl) => res := CheckIdle(wl);
    }

    method MonitorIdle() returns (res: Outcome)
      requires Valid() && client.open && Live(Current())
      requires !Copy().deleting && Copy().finalizer && Copy().status.phase == Active
      requires Current().turn.value.views == [] && Current().turn.value.saved == map[]
      requires client.seen.extractions == []
      modifies client`seen, client`open, client.api
      ensures Valid() && ActiveAnswers(old(client.seen), client.seen)
      ensures client.seen.instanceGone == old(client.seen).instanceGone
      ensures Followed(Then(CRead(client.seen.first),
                            IdlePlan(old(Copy()), old(Current()).snapshots, client.seen)), res)
      ensures client.api.calm ==> TrueOfIdle(old(Current()), client.seen)
    {
      hide Legal, Inv, Exec, By, Enabled, Apply, TrueOfTenantPod, IdlePlan;
      ghost var claim, own, snapshots := Copy(), client.Own(), Current().snapshots;
      var read := client.GetWorkload(false);
      ghost var mid := Current();
      assert mid.turn.value.views == [read];
      res := CheckRead(read);
      if client.api.calm && FoundIdle(claim, client.seen) {
        SameTruth(old(Current()), mid, client.seen);
      }
      Chain(own, CRead(read), IdlePlan(claim, snapshots, client.seen), client.Own());
    }

    // ---- claim_controller.go ---------------------------------------------------------------

    /** Route a claim that exists by deletion mark and phase. */
    method Route() returns (res: Outcome)
      requires Valid() && client.open && Live(Current()) && ClaimOk(Current(), Copy())
      requires Current().turn.value.views == [] && Current().turn.value.saved == map[]
      requires client.seen.extractions == []
      modifies client`seen, client`open, client.api
      ensures Valid() && client.seen.claim == old(client.seen).claim
      ensures Followed(RoutePlan(old(Copy()), old(Current()).snapshots, client.seen), res)
      ensures client.api.calm ==> TrueOfRoute(old(Current()), client.seen)
    {
      hide Legal, Inv, Exec, By, Enabled, Apply;
      hide TrueOfTenantPod, TrueOfIdle, TrueOfActive, TrueOfDeletion, TrueOfPending;
      var claim := client.api.world.turn.value.claim;
      if claim.deleting {
        res := HandleDeletion();
      } else if claim.status.phase == Active {
        res := HandleActive();
      } else if claim.status.phase == Released || claim.status.phase == ReleaseFailed {
        res := Done;
      } else {
        res := HandleNewClaim();
      }
    }

    /** One reconcile.  Whatever the rest of the cluster does meanwhile, the acts it takes and its result
        are the plan for the answers it got, and every act was allowed when it was taken; in an
        undisturbed cluster the answers are the truth about the cluster it started in. */
    method Reconcile(name: string) returns (res: Outcome)
      requires client.api.Valid()
      modifies client, client.api
      ensures Valid()
      ensures Followed(ReconcilePlan(name, old(Current()).snapshots, client.seen), res)
      ensures client.api.calm ==> Reconciles(old(Current()), name, client.seen, Current()) && res != Fail
    {
      hide Legal, Inv, Exec, By, Enabled, Apply, ReconcilePlan, TrueOfReconcile, NoFailure, AllClaims;
      ghost var start, snapshots := Current(), Current().snapshots;
      client.Reset();
      res := Begin(name);
      if client.api.calm {
        var planned := ReconcilePlan(name, snapshots, client.seen).acts;
        PlanLeads(client.api.init, old(client.api.acts), client.api.acts, planned);
        PlanSucceeds(name, snapshots, client.seen);
      }
    }

    /** Get the claim, and go on if it is there. */
    method Begin(name: string) returns (res: Outcome)
      requires Valid() && client.seen == BLANK
      modifies client`seen, client`open, client.api
      ensures Valid()
      ensures Followed(ReconcilePlan(name, old(Current()).snapshots, client.seen), res)
      ensures client.api.calm ==> TrueOfReconcile(old(Current()), name, client.seen)
    {
      hide Legal, Inv, Exec, By, Enabled, Apply;
      ghost var own, snapshots, start := client.Own(), Current().snapshots, Current();
      var claim := client.GetClaim(name);
      if claim.Failed? {
        return Fail;
      }
      if claim.Absent? {
        return Done;
      }
      ghost var mid := Current();
      res := Route();
      if client.api.calm {
        SameRoute(start.(turn := Some(Turn(name, claim.value, [], map[]))), mid, client.seen);
      }
      Chain(own, CBegin(name), RoutePlan(claim.value, snapshots, client.seen), client.Own());
    }
  }
}
