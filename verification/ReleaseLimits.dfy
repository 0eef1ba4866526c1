/** How far the guarantees about overlays and tokens go when a tenancy ends. */
module ReleaseLimits {
  import opened Wrappers
  import opened Cluster
  import opened ClusterRuns
  import opened OverlayRuns
  import opened ApiServers
  import opened ClaimPlan
  import opened ClaimProgress
  import TokenStores

  // ---- Overlays ---------------------------------------------------------------------

  /** The reconcile gets as far as ending a tenancy that still has a pod. */
  ghost predicate EndsTenancy(s: Seen) {
    && s.claim.Got? && s.tenantPod.Got?
    && var c := s.claim.value;
    && (if c.deleting then c.finalizer
        else c.status.phase == Active && !(c.status.instance.Some? && s.instanceGone) && IdleOver(c, s))
  }

  ghost predicate Deletes(acts: seq<Act>, p: string) { CDelete(p, Reap) in acts }

  ghost predicate Stores(acts: seq<Act>, p: string) { CExtract(p, Stored) in acts }

  lemma AttemptsStore(p: string, xs: seq<Extraction>)
    requires Extracted(xs)
    ensures CExtract(p, Stored) in ExtractActs(p, xs)
  {
    assert ExtractActs(p, xs)[|xs| - 1] == CExtract(p, Stored);
  }

  lemma StakeStores(name: string, s: Seen)
    requires EndsTenancy(s) && OverlayAtStake(true, s) && Extracted(s.extractions)
    ensures Stores(ReconcilePlan(name, true, s).acts, s.tenantPod.value.name)
  {
    var p := s.tenantPod.value.name;
    AttemptsStore(p, s.extractions);
    var last := if s.claim.value.deleting then CUnfinalize else ReleasedAct(s.claim.value, Hibernate);
    var tail := SavedPlan(s.tenantPod.value, s, last).acts;
    assert CExtract(p, Stored) in tail;
    if s.claim.value.deleting {
      assert ReconcilePlan(name, true, s).acts == [CBegin(name), CRead(s.first)] + tail;
    } else {
      assert ReconcilePlan(name, true, s).acts == [CBegin(name), CRead(s.first), CRead(s.second)] + tail;
    }
  }

  /** The acts of a removal that stores nothing. */
  lemma PlainRemoval(p: PodRef, destroy: bool, s: Seen, last: Act)
    requires s.podDeleted == Removed && !last.CExtract?
    ensures var acts := RemovePlan(p, destroy, s, last).acts;
            Deletes(acts, p.name) && forall a :: a in acts ==> !a.CExtract?
  {
    var acts := RemovePlan(p, destroy, s, last).acts;
    assert acts[if destroy then 1 else 0] == CDelete(p.name, Reap);
  }

  lemma NoStakeDeletes(name: string, snapshots: bool, s: Seen)
    requires EndsTenancy(s) && s.podDeleted == Removed && !OverlayAtStake(snapshots, s)
    ensures var acts := ReconcilePlan(name, snapshots, s).acts;
            Deletes(acts, s.tenantPod.value.name) && forall a :: a in acts ==> !a.CExtract?
  {
    var p, c := s.tenantPod.value, s.claim.value;
    var action := if s.first.Found? then Resolve(s.first.wl.action) else Hibernate;
    var destroy, last := action == Destroy && snapshots, if c.deleting then CUnfinalize else ReleasedAct(c, action);
    PlainRemoval(p, destroy, s, last);
    var tail := RemovePlan(p, destroy, s, last).acts;
    if c.deleting || !(action == Hibernate && snapshots) {
      assert ReconcilePlan(name, snapshots, s).acts == [CBegin(name), CRead(s.first)] + tail;
    } else {
      assert ReconcilePlan(name, snapshots, s).acts == [CBegin(name), CRead(s.first), CRead(s.second)] + tail;
    }
  }

  /** Exactly when a reconcile that ends a tenancy deletes the pod without having stored its overlay: when
      there is nothing to store it with or for, or the workload that says so could not be read. */
  lemma UnsavedDeletionIff(name: string, snapshots: bool, s: Seen)
    requires EndsTenancy(s) && s.podDeleted == Removed
    ensures var acts, p := ReconcilePlan(name, snapshots, s).acts, s.tenantPod.value.name;
            Deletes(acts, p) && !Stores(acts, p) <==> !OverlayAtStake(snapshots, s)
  {
    if !OverlayAtStake(snapshots, s) {
      NoStakeDeletes(name, snapshots, s);
    } else if Extracted(s.extractions) {
      StakeStores(name, s);
    } else {
      FailedExtractionStopsRelease(name, s);
    }
  }

  // ---- What failed attempts leave in the store -------------------------------------------

  function SnapshotOf(w: World, k: Key): Option<Snapshot> {
    if k in w.snaps then Some(w.snaps[k]) else None
  }

  /** The act writes or deletes the snapshot of the key. */
  ghost predicate WritesStore(w: World, a: Act, k: Key) {
    && TouchesStore(w, a, k)
    && match a
       case CExtract(_, FailedTorn(_)) => true
       case CExtract(p, FailedClean) => false
       case CExtract(p, _) => ArchiveOf(w, p) != []
       case CDropSnap(removed) => removed
       case _ => false
  }

  /** What such an act leaves. */
  ghost function LeftBy(w: World, a: Act): Option<Snapshot> {
    match a
    case CExtract(_, FailedTorn(empty)) => Some(Torn(empty))
    case CExtract(p, _) => Some(Good(ArchiveOf(w, p)))
    case _ => None
  }

  lemma StoreAfter(w: World, a: Act, k: Key)
    requires Enabled(w, a)
    ensures SnapshotOf(Apply(w, a), k) == if WritesStore(w, a, k) then LeftBy(w, a) else SnapshotOf(w, k)
  {
  }

  /** Step m is the last of a stretch to write the store for the key. */
  ghost predicate LastWrite(init: World, acts: seq<Act>, i: nat, j: nat, m: nat, k: Key)
    requires Legal(init, acts) && j <= |acts|
  {
    && i <= m < j && WritesStore(At(init, acts, m), acts[m], k)
    && (forall n :: m < n < j ==> !WritesStore(At(init, acts, n), acts[n], k))
  }

  /** After any stretch of a run the store holds for a key what the last write left, or what it held before. */
  lemma {:induction false} StoreIsLastWrite(init: World, acts: seq<Act>, i: nat, j: nat, k: Key)
      returns (last: Option<nat>)
    requires Legal(init, acts) && i <= j <= |acts|
    ensures match last
            case None =>
              && SnapshotOf(At(init, acts, j), k) == SnapshotOf(At(init, acts, i), k)
              && (forall n :: i <= n < j ==> !WritesStore(At(init, acts, n), acts[n], k))
            case Some(m) =>
              && LastWrite(init, acts, i, j, m, k)
              && SnapshotOf(At(init, acts, j), k) == LeftBy(At(init, acts, m), acts[m])
    decreases j - i
  {
    hide Enabled, Apply, At, Legal, WritesStore, LeftBy, SnapshotOf;
    if i == j {
      last := None;
    } else {
      last := StoreIsLastWrite(init, acts, i, j - 1, k);
      AtStep(init, acts, j - 1);
      StoreAfter(At(init, acts, j - 1), acts[j - 1], k);
      if WritesStore(At(init, acts, j - 1), acts[j - 1], k) {
        last := Some(j - 1);
      }
    }
  }

  /** The claim controller's acts between two moments are these. */
  ghost predicate OwnActs(acts: seq<Act>, i: nat, j: nat, own: seq<Act>)
    requires i <= j <= |acts|
  {
    By(acts[..j], Claims) == By(acts[..i], Claims) + own
  }

  lemma {:induction false} OwnActIn(acts: seq<Act>, i: nat, j: nat, own: seq<Act>, m: nat)
    requires i <= m < j <= |acts| && OwnActs(acts, i, j, own) && ActorOf(acts[m]) == Claims
    ensures acts[m] in own
    decreases j
  {
    var rest := OwnPrefix(acts, i, j - 1);
    assert acts[..j][..j - 1] == acts[..j - 1];
    var more := if ActorOf(acts[j - 1]) == Claims then [acts[j - 1]] else [];
    assert By(acts[..j], Claims) == By(acts[..i], Claims) + (rest + more);
    var before := By(acts[..i], Claims);
    assert (before + own)[|before|..] == own && (before + (rest + more))[|before|..] == rest + more;
    assert own == rest + more;
    if m < j - 1 {
      OwnActIn(acts, i, j - 1, rest, m);
    }
  }

  lemma {:induction false} OwnPrefix(acts: seq<Act>, i: nat, j: nat) returns (own: seq<Act>)
    requires i <= j <= |acts|
    ensures OwnActs(acts, i, j, own)
    decreases j
  {
    if i == j {
      own := [];
    } else {
      own := OwnPrefix(acts, i, j - 1);
      assert acts[..j][..j - 1] == acts[..j - 1];
      if ActorOf(acts[j - 1]) == Claims {
        own := own + [acts[j - 1]];
      }
    }
  }

  /** The attempts in a plan are those of the answers. */
  lemma PlannedAttempt(name: string, s: Seen, a: Act)
    requires OverlayAtStake(true, s) && Stored !in s.extractions && a in ReconcilePlan(name, true, s).acts
    ensures a.CExtract? ==> a.extraction in s.extractions
    ensures !a.CDropSnap?
  {
    FailedExtractionStopsRelease(name, s);
    assert !Extracted(s.extractions);
  }

  /** The last write of the stretch, if there is one, left what the store held before. */
  ghost predicate WroteTheSame(init: World, acts: seq<Act>, i: nat, j: nat, k: Key)
    requires Legal(init, acts) && i <= j <= |acts|
  {
    forall m: nat :: LastWrite(init, acts, i, j, m, k) ==>
      LeftBy(At(init, acts, m), acts[m]) == SnapshotOf(At(init, acts, i), k)
  }

  /** A failed attempt that wrote the store all the same: it tore the files, or it stored the archive and then
      reported an error. */
  ghost predicate FailedWrite(w: World, a: Act, attempts: seq<Extraction>) {
    && a.CExtract? && a.extraction in attempts
    && (a.extraction.FailedTorn? || (a.extraction == FailedAfterStore && ArchiveOf(w, a.pod) != []))
  }

  /** Exactly when a release or deletion none of whose attempts succeeded leaves the key's snapshot as it was:
      when no attempt wrote the store, or the last that did left what was there before. */
  lemma FailedReleaseKeepsSnapshotIff(init: World, acts: seq<Act>, i: nat, j: nat, name: string, s: Seen, k: Key)
    requires Legal(init, acts) && i <= j <= |acts|
    requires OverlayAtStake(true, s) && Stored !in s.extractions && s.claim.value.key == k
    requires OwnActs(acts, i, j, ReconcilePlan(name, true, s).acts)
    ensures SnapshotOf(At(init, acts, j), k) == SnapshotOf(At(init, acts, i), k) <==> WroteTheSame(init, acts, i, j, k)
    ensures forall m: nat :: LastWrite(init, acts, i, j, m, k) ==>
              FailedWrite(At(init, acts, m), acts[m], s.extractions)
  {
    hide At, Legal, Enabled, Apply, LeftBy, ReconcilePlan, OverlayAtStake, SnapshotOf, WritesStore, FailedWrite;
    var last := StoreIsLastWrite(init, acts, i, j, k);
    forall m: nat | LastWrite(init, acts, i, j, m, k)
      ensures last == Some(m) && FailedWrite(At(init, acts, m), acts[m], s.extractions)
    {
      WriterIsAttempt(init, acts, i, j, name, s, k, m);
    }
  }

  /** The attempt stored this archive and then reported an error. */
  ghost predicate StoredThenFailed(w: World, a: Act, archive: Bytes) {
    a.CExtract? && a.extraction == FailedAfterStore && ArchiveOf(w, a.pod) == archive
  }

  /** An intact snapshot of before the release survives it exactly when the last attempt that wrote the store, if
      there is one, stored the same archive before it reported its error. */
  lemma IntactSnapshotSurvivesIff(init: World, acts: seq<Act>, i: nat, j: nat, name: string, s: Seen, kept: Bytes)
    requires Legal(init, acts) && i <= j <= |acts|
    requires OverlayAtStake(true, s) && Stored !in s.extractions
    requires OwnActs(acts, i, j, ReconcilePlan(name, true, s).acts)
    requires SnapshotOf(At(init, acts, i), s.claim.value.key) == Some(Good(kept))
    ensures SnapshotOf(At(init, acts, j), s.claim.value.key) == Some(Good(kept))
            <==> forall m: nat :: LastWrite(init, acts, i, j, m, s.claim.value.key) ==>
                   StoredThenFailed(At(init, acts, m), acts[m], kept)
  {
    hide At, Legal, Enabled, Apply, ReconcilePlan, SnapshotOf, WritesStore, ArchiveOf;
    FailedReleaseKeepsSnapshotIff(init, acts, i, j, name, s, s.claim.value.key);
    forall m: nat | LastWrite(init, acts, i, j, m, s.claim.value.key)
      ensures LeftBy(At(init, acts, m), acts[m]) == Some(Good(kept))
              <==> StoredThenFailed(At(init, acts, m), acts[m], kept)
    {
      assert FailedWrite(At(init, acts, m), acts[m], s.extractions);
    }
  }

  lemma WriterIsAttempt(init: World, acts: seq<Act>, i: nat, j: nat, name: string, s: Seen, k: Key, m: nat)
    requires Legal(init, acts) && i <= m < j <= |acts| && WritesStore(At(init, acts, m), acts[m], k)
    requires OverlayAtStake(true, s) && Stored !in s.extractions
    requires OwnActs(acts, i, j, ReconcilePlan(name, true, s).acts)
    ensures FailedWrite(At(init, acts, m), acts[m], s.extractions)
  {
    hide At, Legal, Enabled, Apply, ReconcilePlan, OverlayAtStake;
    OwnActIn(acts, i, j, ReconcilePlan(name, true, s).acts, m);
    PlannedAttempt(name, s, acts[m]);
  }

  // ---- Tokens -----------------------------------------------------------------------

  /** A claim that becomes Released because it was idle has no token any more. */
  lemma IdleReleaseRevokes(init: World, acts: seq<Act>, i: nat, c: string)
    requires Legal(init, acts) && i < |acts|
    requires c in At(init, acts, i).claims && At(init, acts, i).claims[c].status.phase == Active
    requires c in At(init, acts, i + 1).claims
    requires var st := At(init, acts, i + 1).claims[c].status; st.phase == Released && st.detail != PodGone
    ensures c !in At(init, acts, i + 1).secrets
  {
    ActiveIsLeftOnlyWhenDue(init, acts, i, c);
    AtStep(init, acts, i);
    var w := At(init, acts, i);
    if acts[i].CMint? {
      assert ClaimEdit(w, acts[i]) == Same;
    }
  }

  /** But one that becomes Released because its pod is gone keeps it: that path writes the status and
      revokes nothing. */
  lemma GoneReleaseKeepsToken(name: string, snapshots: bool, s: Seen)
    requires s.claim.Got? && s.wrote && s.instanceGone
    requires var c := s.claim.value; !c.deleting && c.status.phase == Active && c.status.instance.Some?
    ensures var st := s.claim.value.status.(phase := Released, detail := PodGone, endpoint := None);
            ReconcilePlan(name, snapshots, s) == Plan([CBegin(name), CStatus(st)], Done)
  {
  }

  /** Exactly when a claim that has just been released still has a token: when it was released because its
      pod is gone, and had one before. */
  lemma ReleasedKeepsTokenIff(init: World, acts: seq<Act>, i: nat, c: string)
    requires Legal(init, acts) && i < |acts|
    requires c in At(init, acts, i).claims && At(init, acts, i).claims[c].status.phase == Active
    requires c in At(init, acts, i + 1).claims && At(init, acts, i + 1).claims[c].status.phase == Released
    ensures c in At(init, acts, i + 1).secrets
            <==> At(init, acts, i + 1).claims[c].status.detail == PodGone && c in At(init, acts, i).secrets
  {
    AtStep(init, acts, i);
    OnlyAWriteReleases(At(init, acts, i), acts[i], c);
    if At(init, acts, i + 1).claims[c].status.detail != PodGone {
      IdleReleaseRevokes(init, acts, i, c);
    }
  }

  lemma OnlyAWriteReleases(w: World, a: Act, c: string)
    requires Enabled(w, a) && c in w.claims && w.claims[c].status.phase == Active
    requires c in Apply(w, a).claims && Apply(w, a).claims[c].status.phase == Released
    ensures Apply(w, a).secrets == w.secrets
  {
    assert a.CStatus?;
  }

  /** The informer's cache shows some of the Secrets of the cluster, each with its own token text. */
  ghost predicate Mirrors(cache: map<string, TokenStores.TokenSecret>, w: World, text: nat -> string) {
    forall n :: n in cache ==>
      n in w.secrets && cache[n].raw == Some(text(w.secrets[n].token))
  }

  /** From the cluster to the API: once a token is revoked and no event about it is on its way any more, the
      token store has forgotten it, at any later moment of any run.  TokenStore.Lookup accepts no dead token. */
  lemma RevokedIsRefused(init: World, acts: seq<Act>, i: nat, j: nat, st: TokenStores.State, text: nat -> string,
                         hash: string -> TokenStores.Digest)
    requires Init(init) && Legal(init, acts) && i < j <= |acts| && acts[i] == CRevoke
    requires forall m, n :: text(m) == text(n) ==> m == n
    requires TokenStores.Injective(hash) && TokenStores.Sound(st, hash)
    requires Mirrors(st.cache, At(init, acts, j), text)
    requires At(init, acts, i).turn.Some? && At(init, acts, i).turn.value.name in At(init, acts, i).secrets
    requires forall e :: e in st.pending ==>
               e.secret.raw != Some(text(At(init, acts, i).secrets[At(init, acts, i).turn.value.name].token))
    ensures TokenStores.Dead(st, hash, text(At(init, acts, i).secrets[At(init, acts, i).turn.value.name].token))
  {
    hide At, Legal, Enabled, Apply, Init, TokenStores.Sound;
    RevokedTokenIsDead(init, acts, i, j);
    var t := text(At(init, acts, i).secrets[At(init, acts, i).turn.value.name].token);
    assert forall n :: n in st.cache ==> st.cache[n].raw != Some(t);
    if hash(t) in st.entries {
      TokenStores.EntryMeansLive(st, hash, t);
    }
  }
}
