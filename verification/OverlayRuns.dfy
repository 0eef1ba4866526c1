/** What becomes of tenants' overlays and tokens over whole runs. */
module OverlayRuns {
  import opened Wrappers
  import opened Cluster
  import opened ClusterSafety
  import opened ClusterRuns

  // ---- A pod is reaped only after its overlay was stored ------------------------

  ghost predicate SavedIn(w: World, p: string, archive: Bytes) {
    w.turn.Some? && p in w.turn.value.saved && w.turn.value.saved[p] == archive
  }

  lemma SavedBefore(w: World, a: Act, p: string, archive: Bytes)
    requires Enabled(w, a) && SavedIn(Apply(w, a), p, archive)
    ensures (a == CExtract(p, Stored) && archive == ArchiveOf(w, p)) || (!a.CBegin? && SavedIn(w, p, archive))
  {
  }

  /** The reconcile in progress ends a tenancy by hibernating: there is a store, the last workload it read has
      overlay dirs, and the action of the first is hibernate or not set (or that read failed). */
  ghost predicate Hibernating(w: World) {
    && w.snapshots && w.turn.Some? && w.turn.value.views != []
    && (w.turn.value.views[0].Found? ==> w.turn.value.views[0].wl.action in {Unset, Hibernate})
    && var last := w.turn.value.views[|w.turn.value.views| - 1]; last.Found? && last.wl.overlay
  }

  /** Step j of the run is a successful ExtractAndStore of p, in the reconcile still going on after n steps. */
  ghost predicate StoredAt(init: World, acts: seq<Act>, j: nat, n: nat, p: string, archive: Bytes)
    requires Legal(init, acts) && n <= |acts|
  {
    && j < n
    && acts[j] == CExtract(p, Stored)
    && archive == (if p in At(init, acts, j).disks then At(init, acts, j).disks[p] else [])
    && (forall m :: j < m < n ==> !acts[m].CBegin?)
  }

  lemma {:induction false} SavedHasCause(init: World, acts: seq<Act>, n: nat, p: string, archive: Bytes)
      returns (j: nat)
    requires Legal(init, acts) && n <= |acts| && init.turn == None
    requires SavedIn(At(init, acts, n), p, archive)
    ensures StoredAt(init, acts, j, n, p, archive)
    decreases n
  {
    if n == 0 {
      assert false;
    } else {
      AtStep(init, acts, n - 1);
      SavedBefore(At(init, acts, n - 1), acts[n - 1], p, archive);
      if acts[n - 1] == CExtract(p, Stored) && archive == ArchiveOf(At(init, acts, n - 1), p) {
        j := n - 1;
      } else {
        j := SavedHasCause(init, acts, n - 1, p, archive);
      }
    }
  }

  /** Whenever the operator ends a tenancy with a readable hibernate workload that has overlay dirs,
      it deletes the pod only after an ExtractAndStore of that pod succeeded in the same reconcile,
      and the store holds the archive that was extracted (an empty archive is never written). */
  lemma ReapOnlyAfterStore(init: World, acts: seq<Act>, i: nat, p: string) returns (j: nat)
    requires Init(init) && Legal(init, acts) && i < |acts|
    requires acts[i] == CDelete(p, Reap) && Hibernating(At(init, acts, i))
    ensures var w := At(init, acts, i);
            && p in w.turn.value.saved && StoredAt(init, acts, j, i, p, w.turn.value.saved[p])
            && (w.turn.value.saved[p] != [] ==>
                  && w.turn.value.claim.key in w.snaps
                  && w.snaps[w.turn.value.claim.key] == Good(w.turn.value.saved[p]))
  {
    InitInv(init);
    AtInv(init, acts, i);
    AtStep(init, acts, i);
    j := SavedHasCause(init, acts, i, p, At(init, acts, i).turn.value.saved[p]);
  }

  // ---- Hibernate, then revive ------------------------------------------------------

  /** The act may change what the store holds for the key. */
  ghost predicate TouchesStore(w: World, a: Act, k: Key) {
    && (a.CExtract? || a.CDropSnap?)
    && w.turn.Some? && w.turn.value.claim.key == k
  }

  lemma StoreKept(w: World, a: Act, k: Key)
    requires Enabled(w, a) && !TouchesStore(w, a, k)
    ensures k in Apply(w, a).snaps <==> k in w.snaps
    ensures k in w.snaps ==> Apply(w, a).snaps[k] == w.snaps[k]
  {
  }

  /** No store, no failed store and no DeleteSnapshot for the key between two moments. */
  ghost predicate StoreUntouched(init: World, acts: seq<Act>, i: nat, j: nat, k: Key)
    requires Legal(init, acts) && j <= |acts|
  {
    forall m :: i <= m < j ==> !TouchesStore(At(init, acts, m), acts[m], k)
  }

  lemma {:induction false} StoreStays(init: World, acts: seq<Act>, i: nat, j: nat, k: Key)
    requires Legal(init, acts) && i <= j <= |acts| && StoreUntouched(init, acts, i, j, k)
    ensures k in At(init, acts, i).snaps <==> k in At(init, acts, j).snaps
    ensures k in At(init, acts, i).snaps ==> At(init, acts, j).snaps[k] == At(init, acts, i).snaps[k]
    decreases j - i
  {
    if i < j {
      StoreStays(init, acts, i, j - 1, k);
      AtStep(init, acts, j - 1);
      StoreKept(At(init, acts, j - 1), acts[j - 1], k);
    }
  }

  lemma InjectEffect(w: World, a: Act, q: string, junk: Bytes)
    requires Enabled(w, a) && a == CInject(q, true, junk) && NamesInv(w)
    ensures var k := w.turn.value.claim.key; k in w.snaps && q in w.pods && Bound(w.pods[q], k)
    ensures var k := w.turn.value.claim.key; var w' := Apply(w, a);
            q in w'.injected && w'.injected[q] == Injection(k, w.snaps[k])
    ensures var k := w.turn.value.claim.key; var w' := Apply(w, a);
            w.snaps[k].Good? ==> q in w'.disks && w'.disks[q] == w.snaps[k].archive
  {
  }

  /** Hibernate then revive is a round trip.  If step i reaps pod p with a non-empty archive, and the
      next thing that concerns the store of that tenant and workload is a successful inject at step j,
      then the injected pod's overlay is exactly what was extracted from p before it was deleted. */
  lemma HibernateThenRevive(init: World, acts: seq<Act>, i: nat, j: nat, p: string, q: string, junk: Bytes)
      returns (m: nat)
    requires Init(init) && Legal(init, acts) && i < j < |acts|
    requires acts[i] == CDelete(p, Reap) && Hibernating(At(init, acts, i))
    requires acts[j] == CInject(q, true, junk) && At(init, acts, j).turn.Some?
    requires At(init, acts, j).turn.value.claim.key == At(init, acts, i).turn.value.claim.key
    requires StoreUntouched(init, acts, i, j, At(init, acts, j).turn.value.claim.key)
    requires !SavedIn(At(init, acts, i), p, [])
    ensures m < i && p in At(init, acts, m).disks && StoredAt(init, acts, m, i, p, At(init, acts, m).disks[p])
    ensures q in At(init, acts, j + 1).disks
    ensures At(init, acts, j + 1).disks[q] == At(init, acts, m).disks[p]
  {
    m := ReapOnlyAfterStore(init, acts, i, p);
    var k := At(init, acts, j).turn.value.claim.key;
    StoreStays(init, acts, i, j, k);
    InitInv(init);
    AtInv(init, acts, j);
    AtStep(init, acts, j);
    InjectEffect(At(init, acts, j), acts[j], q, junk);
  }

  // ---- Where injected bytes come from -------------------------------------------------

  /** Step j extracted this archive from a pod of this tenant and workload. */
  ghost predicate ExtractedAt(init: World, acts: seq<Act>, j: nat, k: Key, archive: Bytes)
    requires Legal(init, acts)
  {
    && j < |acts|
    && acts[j].CExtract? && acts[j].extraction in {Stored, FailedAfterStore}
    && acts[j].pod in At(init, acts, j).pods && Bound(At(init, acts, j).pods[acts[j].pod], k)
    && acts[j].pod in At(init, acts, j).disks && At(init, acts, j).disks[acts[j].pod] == archive
  }

  lemma GoodBefore(w: World, a: Act, k: Key, archive: Bytes)
    requires Enabled(w, a) && k in Apply(w, a).snaps && Apply(w, a).snaps[k] == Good(archive)
    ensures (k in w.snaps && w.snaps[k] == Good(archive))
            || (a.CExtract? && a.extraction in {Stored, FailedAfterStore}
                && a.pod in w.pods && Bound(w.pods[a.pod], k) && a.pod in w.disks && w.disks[a.pod] == archive)
  {
  }

  /** Every intact snapshot in the store was extracted from a pod of that same tenant and workload. */
  lemma {:induction false} SnapshotProvenance(init: World, acts: seq<Act>, n: nat, k: Key, archive: Bytes)
      returns (j: nat)
    requires Init(init) && Legal(init, acts) && n <= |acts|
    requires k in At(init, acts, n).snaps && At(init, acts, n).snaps[k] == Good(archive)
    ensures j < n && ExtractedAt(init, acts, j, k, archive)
    decreases n
  {
    if n == 0 {
      assert false;
    } else {
      AtStep(init, acts, n - 1);
      GoodBefore(At(init, acts, n - 1), acts[n - 1], k, archive);
      if k in At(init, acts, n - 1).snaps && At(init, acts, n - 1).snaps[k] == Good(archive) {
        j := SnapshotProvenance(init, acts, n - 1, k, archive);
      } else {
        j := n - 1;
      }
    }
  }

  /** No tenant ever gets another tenant's overlay: the bytes an inject puts into a pod were
      extracted from a pod with the same tenant and workload labels. */
  lemma InjectedBytesAreTheTenantsOwn(init: World, acts: seq<Act>, i: nat, q: string, junk: Bytes, archive: Bytes)
      returns (j: nat)
    requires Init(init) && Legal(init, acts) && i < |acts| && acts[i] == CInject(q, true, junk)
    requires q in At(init, acts, i + 1).injected && At(init, acts, i + 1).injected[q].snapshot == Good(archive)
    ensures q in At(init, acts, i).pods
    ensures var pod := At(init, acts, i).pods[q];
            pod.tenant.Some? && j < i && ExtractedAt(init, acts, j, Key(pod.tenant.value, pod.workload), archive)
  {
    InitInv(init);
    AtInv(init, acts, i);
    AtStep(init, acts, i);
    InjectEffect(At(init, acts, i), acts[i], q, junk);
    var k := At(init, acts, i).turn.value.claim.key;
    assert k == Key(k.tenant, k.workload);
    j := SnapshotProvenance(init, acts, i, k, archive);
  }

  // ---- Tokens ---------------------------------------------------------------------------

  /** The token was minted, and no Secret holds it any more. */
  ghost predicate Dead(w: World, token: nat) {
    token < w.minted && forall c :: c in w.secrets ==> w.secrets[c].token != token
  }

  lemma SecretsMove(w: World, a: Act)
    requires Enabled(w, a)
    ensures var e := SecretEdit(w, a);
            (e.Put? ==> e.value.token == w.minted && e.name !in w.secrets) && w.minted <= Apply(w, a).minted
  {
  }

  lemma {:induction false} DeadTokensStayDead(init: World, acts: seq<Act>, i: nat, j: nat, token: nat)
    requires Legal(init, acts) && i <= j <= |acts| && Dead(At(init, acts, i), token)
    ensures Dead(At(init, acts, j), token)
    decreases j - i
  {
    if i < j {
      DeadTokensStayDead(init, acts, i, j - 1, token);
      AtStep(init, acts, j - 1);
      SecretsMove(At(init, acts, j - 1), acts[j - 1]);
    }
  }

  lemma Revoking(w: World, a: Act)
    requires Enabled(w, a) && a == CRevoke && TokensInv(w)
    ensures w.turn.Some? && w.turn.value.name in w.secrets
    ensures Dead(Apply(w, a), w.secrets[w.turn.value.name].token)
  {
  }

  /** Once a claim's token is revoked no Secret holds it again, in any continuation of the run. */
  lemma RevokedTokenIsDead(init: World, acts: seq<Act>, i: nat, j: nat)
    requires Init(init) && Legal(init, acts) && i < j <= |acts| && acts[i] == CRevoke
    ensures var w := At(init, acts, i);
            && w.turn.Some? && w.turn.value.name in w.secrets
            && Dead(At(init, acts, j), w.secrets[w.turn.value.name].token)
  {
    InitInv(init);
    AtInv(init, acts, i);
    AtStep(init, acts, i);
    Revoking(At(init, acts, i), acts[i]);
    DeadTokensStayDead(init, acts, i + 1, j, At(init, acts, i).secrets[At(init, acts, i).turn.value.name].token);
  }

  /** A claim's token does not change while its Secret exists. */
  lemma {:induction false} TokenIsStable(init: World, acts: seq<Act>, i: nat, j: nat, c: string)
    requires Legal(init, acts) && i <= j <= |acts|
    requires forall m :: i <= m <= j ==> c in At(init, acts, m).secrets
    ensures At(init, acts, i).secrets[c] == At(init, acts, j).secrets[c]
    decreases j - i
  {
    if i < j {
      TokenIsStable(init, acts, i, j - 1, c);
      AtStep(init, acts, j - 1);
      SecretsMove(At(init, acts, j - 1), acts[j - 1]);
    }
  }

  lemma Unfinalizing(w: World, a: Act)
    requires Enabled(w, a) && a == CUnfinalize
    ensures w.turn.Some? && w.turn.value.name in w.claims
    ensures w.turn.value.name !in w.secrets && TenantPods(w, w.claims[w.turn.value.name].key) == {}
    ensures w.claims[w.turn.value.name].deleting && w.turn.value.name !in Apply(w, a).claims
  {
  }

  /** handleDeletion drops the finalizer only when the Secret and the tenant's pod are already gone. */
  lemma FinalizerIsHeldUntilClean(init: World, acts: seq<Act>, i: nat)
    requires Legal(init, acts) && i < |acts| && acts[i] == CUnfinalize
    ensures var w := At(init, acts, i);
            && w.turn.Some? && w.turn.value.name in w.claims
            && w.turn.value.name !in w.secrets && TenantPods(w, w.claims[w.turn.value.name].key) == {}
  {
    AtStep(init, acts, i);
    Unfinalizing(At(init, acts, i), acts[i]);
  }

  // ---- One claim write per reconcile ---------------------------------------------------------

  ghost predicate WritesClaim(a: Act) { a.CFinalize? || a.CStatus? || a.CUnfinalize? }

  /** The reconcile has used up its copy of the claim: the stored object has moved past it. */
  ghost predicate Spent(w: World) {
    && w.turn.Some?
    && var t := w.turn.value;
    && t.claim.rv <= w.rv
    && (t.name in w.claims ==> w.claims[t.name].rv > t.claim.rv)
  }

  lemma WriteSpends(w: World, a: Act)
    requires Enabled(w, a) && WritesClaim(a) && NamesInv(w)
    ensures Spent(Apply(w, a))
  {
  }

  lemma SpentStays(w: World, a: Act)
    requires Enabled(w, a) && Spent(w) && !a.CBegin? && ClaimsInv(w)
    ensures Spent(Apply(w, a))
  {
    ClaimEditIsOk(w, a);
  }

  lemma SpentWritesNothing(w: World, a: Act)
    requires Enabled(w, a) && Spent(w)
    ensures !WritesClaim(a)
  {
  }

  lemma {:induction false} SpentUntil(init: World, acts: seq<Act>, i: nat, j: nat)
    requires Inv(init) && Legal(init, acts) && i <= j <= |acts| && Spent(At(init, acts, i))
    requires forall m :: i <= m < j ==> !acts[m].CBegin?
    ensures Spent(At(init, acts, j))
    decreases j - i
  {
    if i < j {
      SpentUntil(init, acts, i, j - 1);
      AtInv(init, acts, j - 1);
      AtStep(init, acts, j - 1);
      SpentStays(At(init, acts, j - 1), acts[j - 1]);
    }
  }

  /** A reconcile writes its claim at most once: between two writes a new reconcile has begun. */
  lemma OneClaimWritePerReconcile(init: World, acts: seq<Act>, i: nat, j: nat)
    requires Init(init) && Legal(init, acts) && i < j < |acts| && WritesClaim(acts[i]) && WritesClaim(acts[j])
    ensures exists m :: i < m < j && acts[m].CBegin?
  {
    if forall m :: i < m < j ==> !acts[m].CBegin? {
      InitInv(init);
      AtInv(init, acts, i);
      AtStep(init, acts, i);
      WriteSpends(At(init, acts, i), acts[i]);
      SpentUntil(init, acts, i + 1, j);
      AtStep(init, acts, j);
      SpentWritesNothing(At(init, acts, j), acts[j]);
    }
  }

  // ---- What "pool+data" on an active claim means ---------------------------------------------------

  lemma ActivatedFrom(w: World, st: Status)
    requires Enabled(w, CStatus(st)) && ClaimsInv(w) && st.phase == Active && st.source == FromPoolData
    ensures w.turn.Some? && st.instance.Some?
    ensures var t := w.turn.value;
            || InjectedFor(w, st.instance.value, t.claim.key)
            || (t.claim.status.source == FromPoolData && t.claim.status.instance.Some?
                && t.claim.status.instance != st.instance
                && InjectedFor(w, t.claim.status.instance.value, t.claim.key))
  {
  }

  /** The inject that a record of injection goes back to. */
  ghost predicate InjectedAt(init: World, acts: seq<Act>, j: nat, q: string, r: Injection)
    requires Legal(init, acts)
  {
    && j < |acts|
    && acts[j].CInject? && acts[j].pod == q && acts[j].ok
    && At(init, acts, j).turn.Some? && At(init, acts, j).turn.value.claim.key == r.key
    && r.key in At(init, acts, j).snaps && At(init, acts, j).snaps[r.key] == r.snapshot
  }

  lemma InjectedBefore(w: World, a: Act, q: string)
    requires Enabled(w, a) && q in Apply(w, a).injected
    ensures (q in w.injected && w.injected[q] == Apply(w, a).injected[q])
            || (a.CInject? && a.pod == q && a.ok && w.turn.Some? && w.turn.value.claim.key in w.snaps
                && Apply(w, a).injected[q] == Injection(w.turn.value.claim.key, w.snaps[w.turn.value.claim.key]))
  {
  }

  lemma {:induction false} InjectionHasCause(init: World, acts: seq<Act>, n: nat, q: string) returns (j: nat)
    requires Init(init) && Legal(init, acts) && n <= |acts| && q in At(init, acts, n).injected
    ensures j < n && InjectedAt(init, acts, j, q, At(init, acts, n).injected[q])
    decreases n
  {
    if n == 0 {
      assert false;
    } else {
      AtStep(init, acts, n - 1);
      InjectedBefore(At(init, acts, n - 1), acts[n - 1], q);
      if q in At(init, acts, n - 1).injected
         && At(init, acts, n - 1).injected[q] == At(init, acts, n).injected[q] {
        j := InjectionHasCause(init, acts, n - 1, q);
      } else {
        j := n - 1;
      }
    }
  }

  /** Whenever a claim becomes Active with source pool+data, an earlier step of the run injected what the
      store then held for that very tenant and workload: into the pod the claim now names, unless the claim
      had remembered another pod (which is then the injected one). */
  lemma PoolDataMeansInjected(init: World, acts: seq<Act>, i: nat, st: Status) returns (j: nat, q: string)
    requires Init(init) && Legal(init, acts) && i < |acts| && acts[i] == CStatus(st)
    requires st.phase == Active && st.source == FromPoolData
    ensures j < i && At(init, acts, i).turn.Some? && st.instance.Some?
    ensures q in At(init, acts, i).injected && InjectedAt(init, acts, j, q, At(init, acts, i).injected[q])
    ensures At(init, acts, i).injected[q].key == At(init, acts, i).turn.value.claim.key
    ensures var remembered := At(init, acts, i).turn.value.claim.status.instance;
            remembered == None || remembered == st.instance ==> q == st.instance.value
  {
    InitInv(init);
    AtInv(init, acts, i);
    AtStep(init, acts, i);
    var w := At(init, acts, i);
    ActivatedFrom(w, st);
    var t := w.turn.value;
    q := if InjectedFor(w, st.instance.value, t.claim.key) then st.instance.value
         else t.claim.status.instance.value;
    j := InjectionHasCause(init, acts, i, q);
  }

  // ---- What an inject puts into a pod ------------------------------------------------------------

  /** A pod is injected at most once: what was recorded stays. */
  lemma {:induction false} InjectionStays(init: World, acts: seq<Act>, i: nat, j: nat, q: string)
    requires Inv(init) && Legal(init, acts) && i <= j <= |acts| && q in At(init, acts, i).injected
    ensures q in At(init, acts, j).injected && At(init, acts, j).injected[q] == At(init, acts, i).injected[q]
    decreases j - i
  {
    hide Enabled, Apply, Inv, At;
    if i < j {
      InjectionStays(init, acts, i, j - 1, q);
      AtInjected(init, acts, j - 1);
    }
  }

  lemma AtInjected(init: World, acts: seq<Act>, i: nat)
    requires Inv(init) && Legal(init, acts) && i < |acts|
    ensures InjectedMove(At(init, acts, i), At(init, acts, i + 1)) && InjectedInv(At(init, acts, i))
  {
    hide Enabled, Apply, InjectedMove, PodsMove, Legal;
    AtMoves(init, acts, i);
    AtInv(init, acts, i);
    AtStep(init, acts, i);
    InjectedStep(At(init, acts, i), acts[i]);
  }

  /** A successful inject fills the pod with the stored archive if and only if the store holds an intact
      one.  Otherwise it holds an empty archive file, and the pod is left as it was. */
  lemma InjectFillsIff(init: World, acts: seq<Act>, j: nat, q: string, r: Injection)
    requires Init(init) && Legal(init, acts) && InjectedAt(init, acts, j, q, r)
    ensures var w, w' := At(init, acts, j), At(init, acts, j + 1);
            && q in w'.injected && w'.injected[q] == r
            && (r.snapshot.Good? ==> q in w'.disks && w'.disks[q] == r.snapshot.archive)
            && (!r.snapshot.Good? ==> r.snapshot == Torn(true) && w'.disks == w.disks)
  {
    InitInv(init);
    AtInv(init, acts, j);
    AtStep(init, acts, j);
    var a := acts[j];
    assert a == CInject(q, true, a.junk);
    InjectEffect(At(init, acts, j), a, q, a.junk);
    EmptyInject(At(init, acts, j), a);
  }

  lemma EmptyInject(w: World, a: Act)
    requires Enabled(w, a) && a.CInject? && a.ok
    ensures w.turn.Some? && w.turn.value.claim.key in w.snaps
    ensures var s := w.snaps[w.turn.value.claim.key];
            !s.Good? ==> s == Torn(true) && Apply(w, a).disks == w.disks
  {
  }

  /** Before step n an inject put this tenant's stored archive into the pod. */
  ghost predicate FilledBefore(init: World, acts: seq<Act>, n: nat, q: string, k: Key)
    requires Legal(init, acts) && n <= |acts|
  {
    exists j: nat, archive :: j < n && InjectedAt(init, acts, j, q, Injection(k, Good(archive)))
                              && FilledAt(init, acts, j + 1, q, archive)
  }

  ghost predicate FilledAt(init: World, acts: seq<Act>, j: nat, q: string, archive: Bytes)
    requires Legal(init, acts)
  {
    j <= |acts| && q in At(init, acts, j).disks && At(init, acts, j).disks[q] == archive
  }

  /** The record of injections says which pods hold a tenant's stored data. */
  lemma FilledIff(init: World, acts: seq<Act>, n: nat, q: string, k: Key)
    requires Init(init) && Legal(init, acts) && n <= |acts|
    ensures FilledBefore(init, acts, n, q, k)
            <==> InjectedFor(At(init, acts, n), q, k) && At(init, acts, n).injected[q].snapshot.Good?
  {
    hide Enabled, Apply, Inv, At, Legal, Init;
    InitInv(init);
    if InjectedFor(At(init, acts, n), q, k) && At(init, acts, n).injected[q].snapshot.Good? {
      var j := InjectionHasCause(init, acts, n, q);
      InjectFillsIff(init, acts, j, q, At(init, acts, n).injected[q]);
      var archive := At(init, acts, n).injected[q].snapshot.archive;
      assert InjectedAt(init, acts, j, q, Injection(k, Good(archive))) && FilledAt(init, acts, j + 1, q, archive);
    }
    if FilledBefore(init, acts, n, q, k) {
      var j: nat, archive :| j < n && InjectedAt(init, acts, j, q, Injection(k, Good(archive)))
                             && FilledAt(init, acts, j + 1, q, archive);
      InjectFillsIff(init, acts, j, q, Injection(k, Good(archive)));
      InjectionStays(init, acts, j + 1, n, q);
    }
  }

  /** Exactly when a claim that becomes Active as pool+data names a pod that holds the tenant's stored data:
      when that pod is recorded as injected with an intact snapshot.  It is recorded as injected unless the
      claim had remembered another pod, and then all depends on the store at the moment of the inject. */
  lemma PoolDataIsTrueIff(init: World, acts: seq<Act>, n: nat, st: Status) returns (j: nat, q: string)
    requires Init(init) && Legal(init, acts) && n < |acts| && acts[n] == CStatus(st)
    requires st.phase == Active && st.source == FromPoolData
    ensures j < n && At(init, acts, n).turn.Some? && st.instance.Some?
    ensures var k := At(init, acts, n).turn.value.claim.key;
            FilledBefore(init, acts, n, st.instance.value, k)
            <==> InjectedFor(At(init, acts, n), st.instance.value, k)
                 && At(init, acts, n).injected[st.instance.value].snapshot.Good?
    ensures q in At(init, acts, n).injected && InjectedAt(init, acts, j, q, At(init, acts, n).injected[q])
    ensures At(init, acts, n).injected[q].key == At(init, acts, n).turn.value.claim.key
    ensures var c := At(init, acts, n).turn.value.claim;
            var k, remembered := c.key, c.status.instance;
            (remembered == None || remembered == st.instance) ==>
              && q == st.instance.value && k in At(init, acts, j).snaps
              && (FilledBefore(init, acts, n, st.instance.value, k) <==> At(init, acts, j).snaps[k].Good?)
  {
    j, q := PoolDataMeansInjected(init, acts, n, st);
    FilledIff(init, acts, n, st.instance.value, At(init, acts, n).turn.value.claim.key);
  }

  // ---- Hibernate, then be served with it --------------------------------------------------------------

  /** The pod of an inject that came before a reap of the same key is the reaped pod, and is gone after it. */
  lemma OldInjecteeIsGone(init: World, acts: seq<Act>, j: nat, i: nat, n: nat, p: string, q: string, r: Injection)
    requires Init(init) && Legal(init, acts) && j < i < n <= |acts|
    requires InjectedAt(init, acts, j, q, r) && acts[i] == CDelete(p, Reap) && At(init, acts, i).turn.Some?
    requires At(init, acts, i).turn.value.claim.key == r.key
    ensures q !in At(init, acts, n).pods
  {
    hide Enabled, Apply, At, Legal, Init, Inv, LaterLabels;
    InitInv(init);
    AtInject(init, acts, j, q, r);
    AtReap(init, acts, i, p);
    if q in At(init, acts, n).pods {
      AtUsed(init, acts, j, i, q);
      PodIsBoundOnce(init, acts, i, n, q);
      PodIsBoundOnce(init, acts, j, i, q);
      StillBound(At(init, acts, j).pods[q], At(init, acts, i).pods[q], r.key);
      assert q == p;
      PodIsBoundOnce(init, acts, i + 1, n, p);
    }
  }

  lemma StillBound(p: Pod, q: Pod, k: Key)
    requires LaterLabels(p, q) && Bound(p, k)
    ensures Bound(q, k)
  {
  }

  lemma AtInject(init: World, acts: seq<Act>, j: nat, q: string, r: Injection)
    requires Init(init) && Legal(init, acts) && InjectedAt(init, acts, j, q, r)
    ensures q in At(init, acts, j).pods && Bound(At(init, acts, j).pods[q], r.key)
  {
    hide Apply, Legal, Init, Inv;
    AtStep(init, acts, j);
  }

  /** After a reap the pod is gone, and while it went it was the only one of its key. */
  lemma AtReap(init: World, acts: seq<Act>, i: nat, p: string)
    requires Init(init) && Legal(init, acts) && i < |acts| && acts[i] == CDelete(p, Reap)
    ensures At(init, acts, i).turn.Some? && p in At(init, acts, i).pods
    ensures Bound(At(init, acts, i).pods[p], At(init, acts, i).turn.value.claim.key)
    ensures OnePodInv(At(init, acts, i))
    ensures p !in At(init, acts, i + 1).pods && p in At(init, acts, i + 1).used
  {
    hide Enabled, Apply, Legal, Init, OnePodInv, LabelsInv, CapsInv, InjectedInv, ClaimsInv, SavedInv, TokensInv;
    InitInv(init);
    AtInv(init, acts, i);
    AtStep(init, acts, i);
    Reaping(At(init, acts, i), p);
  }

  lemma Reaping(w: World, p: string)
    requires Enabled(w, CDelete(p, Reap)) && NamesInv(w)
    ensures w.turn.Some? && p in w.pods && Bound(w.pods[p], w.turn.value.claim.key)
    ensures var w' := Apply(w, CDelete(p, Reap)); p !in w'.pods && p in w'.used
  {
  }

  lemma {:induction false} AtUsed(init: World, acts: seq<Act>, i: nat, j: nat, p: string)
    requires Inv(init) && Legal(init, acts) && i <= j <= |acts| && p in At(init, acts, i).pods
    ensures p in At(init, acts, i).used && p in At(init, acts, j).used
    decreases j - i
  {
    hide Enabled, Apply, At, LabelMove, Legal;
    AtInv(init, acts, i);
    if i < j {
      AtUsed(init, acts, i, j - 1, p);
      AtMoves(init, acts, j - 1);
    }
  }

  /** Hibernate then revive is a round trip.  If step i reaps pod p with a non-empty archive, nothing else
      touches the store for that tenant and workload until step n, and step n makes a claim of theirs Active
      with source pool+data, then an inject between the two filled the pod that the claim names with exactly
      the bytes extracted from p before it was deleted (provided that pod still exists, and that the claim had
      not remembered another one). */
  lemma RevivedWithTheLastOverlay(init: World, acts: seq<Act>, i: nat, n: nat, p: string, st: Status)
      returns (m: nat, j: nat)
    requires Init(init) && Legal(init, acts) && i < n < |acts|
    requires acts[i] == CDelete(p, Reap) && Hibernating(At(init, acts, i)) && !SavedIn(At(init, acts, i), p, [])
    requires acts[n] == CStatus(st) && st.phase == Active && st.source == FromPoolData
    requires At(init, acts, n).turn.Some? && st.instance.Some? && st.instance.value in At(init, acts, n).pods
    requires var c := At(init, acts, n).turn.value.claim;
             && c.key == At(init, acts, i).turn.value.claim.key
             && (c.status.instance == None || c.status.instance == st.instance)
    requires StoreUntouched(init, acts, i, n, At(init, acts, n).turn.value.claim.key)
    ensures m < i < j < n && p in At(init, acts, m).disks
    ensures var archive, q := At(init, acts, m).disks[p], st.instance.value;
            && StoredAt(init, acts, m, i, p, archive) && archive != []
            && InjectedAt(init, acts, j, q, Injection(At(init, acts, n).turn.value.claim.key, Good(archive)))
            && FilledAt(init, acts, j + 1, q, archive)
            && InjectedFor(At(init, acts, n), q, At(init, acts, n).turn.value.claim.key)
            && At(init, acts, n).injected[q].snapshot == Good(archive)
  {
    m := ReapOnlyAfterStore(init, acts, i, p);
    var q;
    j, q := PoolDataMeansInjected(init, acts, n, st);
    var k, r := At(init, acts, n).turn.value.claim.key, At(init, acts, n).injected[q];
    if j < i {
      OldInjecteeIsGone(init, acts, j, i, n, p, q, r);
      assert false;
    }
    assert j != i;
    StoreStays(init, acts, i, j, k);
    InjectFillsIff(init, acts, j, q, r);
  }
}
