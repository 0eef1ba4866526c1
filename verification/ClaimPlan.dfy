/** The claim controller's decisions as a table: what one Reconcile does, as a function of the
    answers it gets from the API server and the snapshot store.  ClaimReconciler is the controller
    itself and is proved to do exactly this. */
module ClaimPlan {
  import opened Wrappers
  import opened Cluster

  /** The answer to a Get or a List of at most one object. */
  datatype Answer<+T> = Failed | Absent | Got(value: T)

  datatype PodRef = PodRef(name: string, pod: Pod)

  /** The answer to a Delete. */
  datatype Deletion = NotDeleted | WasGone | Removed

  /** The outcome of ensureClaimToken for a workload with API access. */
  datatype TokenAnswer = TokenFailed | HadToken | Minted

  /** The answers to the calls that obtain a pod for a claim that has none. */
  datatype Obtained = Obtained(
    poolPod: Answer<PodRef>,
    acquired: bool,               // the relabelling Update of the pool pod succeeded
    hasSnapshot: bool,
    injected: bool,
    junk: Bytes,                  // what a failed inject left in the pod
    token: TokenAnswer,
    created: Option<PodRef>)

  /** Every answer one Reconcile may get; answers to calls it does not make are left as in BLANK. */
  datatype Seen = Seen(
    claim: Answer<Claim>,
    first: Read,                  // first Get of the workload
    second: Read,                 // second one, in releaseClaim
    tenantPod: Answer<PodRef>,
    instanceGone: bool,           // Get of the claim's pod said NotFound
    now: int,
    got: Obtained,
    extractions: seq<Extraction>,
    dropped: bool,                // DeleteSnapshot removed the files
    podDeleted: Deletion,
    revoked: Deletion,
    wrote: bool)                  // the write of the claim succeeded

  /** Before a reconcile has asked anything.  No answer here is a failure. */
  const BLANK := Seen(Absent, Missing, Missing, Absent, false, 0,
                      Obtained(Absent, true, false, false, [], HadToken, Some(NO_POD)),
                      [], true, WasGone, WasGone, true)

  /** No call comes back with an error.  (What an extraction or an inject reports is a separate matter.) */
  ghost predicate NoFailure(s: Seen) {
    && s.claim != Failed && s.first != Unreadable && s.second != Unreadable && s.tenantPod != Failed
    && s.got.poolPod != Failed && s.got.acquired && s.got.token != TokenFailed && s.got.created.Some?
    && s.dropped && s.podDeleted != NotDeleted && s.revoked != NotDeleted && s.wrote
  }

  const NO_POD := PodRef("", Pod("", None, NoPool, PodPending, false, "", 0, 0))

  /** The claim is at the point where it gets its pod. */
  predicate WantsPod(c: Claim) {
    !c.deleting && c.finalizer && c.status.phase == Pending
  }

  /** The reconcile result: requeue at once, after so many seconds, not at all, or an error. */
  datatype Outcome = Done | Requeue | After(seconds: int) | Fail

  const IDLE_CHECK_INTERVAL := 30
  const RELEASE_FAILED_REQUEUE := 300

  /** The acts a reconcile takes, in order, and its result. */
  datatype Plan = Plan(acts: seq<Act>, result: Outcome)

  function Then(a: Act, p: Plan): Plan { Plan([a] + p.acts, p.result) }

  /** A write of the claim, the last call of a reconcile. */
  function Write(a: Act, result: Outcome, s: Seen): Plan {
    if s.wrote then Plan([a], result) else Plan([], Fail)
  }

  // ---- activateClaim ------------------------------------------------------------

  /** A source remembered from an earlier reconcile outranks "existing". */
  function KeptSource(stashed: Source, source: Source): Source {
    if source == Existing && stashed !in {NoSource, Existing} then stashed else source
  }

  function ActiveStatus(st: Status, p: PodRef, source: Source, now: int): Status {
    Status(Active, Some(p.name), Some(Endpoint(p.pod.ip, p.pod.port)), KeptSource(st.source, source),
           Some(now), NoDetail)
  }

  function ActivatePlan(c: Claim, p: PodRef, source: Source, s: Seen): Plan {
    if p.pod.ip == "" then
      if c.status.source != source || c.status.instance != Some(p.name) then
        Write(CStatus(c.status.(source := source, instance := Some(p.name))), After(1), s)
      else Plan([], After(1))
    else Write(CStatus(ActiveStatus(c.status, p, source, s.now)), After(IDLE_CHECK_INTERVAL), s)
  }

  // ---- handleNewClaim -----------------------------------------------------------

  /** The pod is usable whether or not the inject works; only a successful one counts as pool+data. */
  function InjectPlan(c: Claim, p: PodRef, s: Seen): Plan {
    if !s.got.hasSnapshot then ActivatePlan(c, p, FromPool, s)
    else Then(CInject(p.name, s.got.injected, s.got.junk),
              ActivatePlan(c, p, if s.got.injected then FromPoolData else FromPool, s))
  }

  function FromPoolPlan(c: Claim, p: PodRef, s: Seen): Plan {
    if !s.got.acquired then Plan([], Fail) else Then(CAcquire(p.name), InjectPlan(c, p, s))
  }

  function CreatePlan(c: Claim, s: Seen): Plan {
    match s.got.created
    case None => Plan([], Fail)
    case Some(p) => Then(CCreate(p.name), ActivatePlan(c, p, Cold, s))
  }

  function TokenPlan(c: Claim, s: Seen): Plan {
    match s.got.token
    case TokenFailed => Plan([], Fail)
    case HadToken => CreatePlan(c, s)
    case Minted => Then(CMint, CreatePlan(c, s))
  }

  function ColdBootPlan(c: Claim, wl: Workload, s: Seen): Plan {
    if wl.apiDisabled then CreatePlan(c, s) else TokenPlan(c, s)
  }

  function ObtainPlan(c: Claim, wl: Workload, s: Seen): Plan {
    match s.got.poolPod
    case Failed => Plan([], Fail)
    case Got(p) => FromPoolPlan(c, p, s)
    case Absent => ColdBootPlan(c, wl, s)
  }

  /** Delete a terminal pod, then carry on as if there had been none. */
  function ReplacePlan(c: Claim, wl: Workload, p: PodRef, s: Seen): Plan {
    match s.podDeleted
    case NotDeleted => Plan([], Fail)
    case WasGone => ObtainPlan(c, wl, s)
    case Removed => Then(CDelete(p.name, Terminal), ObtainPlan(c, wl, s))
  }

  function ExistingPodPlan(c: Claim, wl: Workload, p: PodRef, s: Seen): Plan {
    if p.pod.phase == PodRunning then ActivatePlan(c, p, Existing, s)
    else if Terminated(p.pod) then ReplacePlan(c, wl, p, s)
    else Plan([], After(2))
  }

  function PodForClaimPlan(c: Claim, wl: Workload, s: Seen): Plan {
    match s.tenantPod
    case Failed => Plan([], Fail)
    case Absent => ObtainPlan(c, wl, s)
    case Got(p) => ExistingPodPlan(c, wl, p, s)
  }

  /** What follows the Get of the workload. */
  function WorkloadPlan(c: Claim, s: Seen): Plan {
    match s.first
    case Missing => Write(CStatus(c.status.(phase := Error, detail := WorkloadNotFound)), Done, s)
    case Unreadable => Plan([], Fail)
    case Found(wl) =>
      if !wl.ready then Write(CStatus(c.status.(phase := Error, detail := WorkloadNotReady)), Done, s)
      else PodForClaimPlan(c, wl, s)
  }

  function PendingPlan(c: Claim, s: Seen): Plan { Then(CRead(s.first), WorkloadPlan(c, s)) }

  function NewClaimPlan(c: Claim, s: Seen): Plan {
    if !c.finalizer then Write(CFinalize, Requeue, s)
    else if c.status.phase != Pending then Write(CStatus(c.status.(phase := Pending)), Requeue, s)
    else PendingPlan(c, s)
  }

  // ---- Ending a tenancy -----------------------------------------------------------

  /** The attempts of extractWithRetry on one pod. */
  function ExtractActs(p: string, xs: seq<Extraction>): seq<Act> {
    seq(|xs|, i requires 0 <= i < |xs| => CExtract(p, xs[i]))
  }

  predicate Extracted(xs: seq<Extraction>) { |xs| > 0 && xs[|xs| - 1] == Stored }

  function Prepend(acts: seq<Act>, p: Plan): Plan { Plan(acts + p.acts, p.result) }

  /** deleteClaimToken, then the last write of the claim. */
  function RevokePlan(last: Act, s: Seen): Plan {
    match s.revoked
    case NotDeleted => Plan([], Fail)
    case WasGone => Write(last, Done, s)
    case Removed => Then(CRevoke, Write(last, Done, s))
  }

  /** Delete the pod, then revoke. */
  function DeletePlan(p: PodRef, last: Act, s: Seen): Plan {
    match s.podDeleted
    case NotDeleted => Plan([], Fail)
    case WasGone => RevokePlan(last, s)
    case Removed => Then(CDelete(p.name, Reap), RevokePlan(last, s))
  }

  /** For action destroy delete the snapshot before the pod. */
  function RemovePlan(p: PodRef, destroy: bool, s: Seen, last: Act): Plan {
    if destroy then Then(CDropSnap(s.dropped), DeletePlan(p, last, s)) else DeletePlan(p, last, s)
  }

  /** The attempts to store the overlay, and after a success the removal of the pod. */
  function SavedPlan(p: PodRef, s: Seen, last: Act): Plan {
    Prepend(ExtractActs(p.name, s.extractions), DeletePlan(p, last, s))
  }

  /** Store the overlay; if no attempt succeeds take the other plan. */
  function SavePlan(p: PodRef, s: Seen, last: Act, failed: Plan): Plan {
    if Extracted(s.extractions) then SavedPlan(p, s, last)
    else Prepend(ExtractActs(p.name, s.extractions), failed)
  }

  /** What handleDeletion does with the tenant's pod. */
  function DeletionPodPlan(p: PodRef, snapshots: bool, s: Seen): Plan {
    var action := if s.first.Found? then Resolve(s.first.wl.action) else Hibernate;
    var save := action == Hibernate && snapshots && s.first.Found? && s.first.wl.overlay;
    if save then SavePlan(p, s, CUnfinalize, Plan([], After(RELEASE_FAILED_REQUEUE)))
    else RemovePlan(p, action == Destroy && snapshots, s, CUnfinalize)
  }

  function FinalizePlan(snapshots: bool, s: Seen): Plan {
    match s.tenantPod
    case Failed => Plan([], Fail)
    case Absent => RevokePlan(CUnfinalize, s)
    case Got(p) => DeletionPodPlan(p, snapshots, s)
  }

  function DeletionPlan(c: Claim, snapshots: bool, s: Seen): Plan {
    if !c.finalizer then Plan([], Done) else Then(CRead(s.first), FinalizePlan(snapshots, s))
  }

  function ReleasedAct(c: Claim, action: Action): Act {
    CStatus(c.status.(phase := Released, detail := IdleTimeout(action)))
  }

  function ReleaseFailedPlan(c: Claim, s: Seen): Plan {
    Write(CStatus(c.status.(phase := ReleaseFailed, detail := ExtractFailed)), After(RELEASE_FAILED_REQUEUE), s)
  }

  /** Hibernating: read the workload again, and store the overlay if there are overlay dirs. */
  function HibernatePlan(c: Claim, p: PodRef, s: Seen): Plan {
    if s.second.Found? && s.second.wl.overlay then
      SavePlan(p, s, ReleasedAct(c, Hibernate), ReleaseFailedPlan(c, s))
    else RemovePlan(p, false, s, ReleasedAct(c, Hibernate))
  }

  /** What releaseClaim does with the tenant's pod. */
  function ReleasePodPlan(c: Claim, p: PodRef, action: Action, snapshots: bool, s: Seen): Plan {
    if action == Hibernate && snapshots then Then(CRead(s.second), HibernatePlan(c, p, s))
    else RemovePlan(p, action == Destroy && snapshots, s, ReleasedAct(c, action))
  }

  function ReleasePlan(c: Claim, action: Action, snapshots: bool, s: Seen): Plan {
    match s.tenantPod
    case Failed => Plan([], Fail)
    case Absent => RevokePlan(ReleasedAct(c, action), s)
    case Got(p) => ReleasePodPlan(c, p, action, snapshots, s)
  }

  /** Release at the idle deadline, else come back at it. */
  function ElapsedPlan(c: Claim, wl: Workload, lastActivity: int, snapshots: bool, s: Seen): Plan {
    if s.now - lastActivity >= wl.timeout then ReleasePlan(c, Resolve(wl.action), snapshots, s)
    else Plan([], After(wl.timeout - (s.now - lastActivity)))
  }

  /** What follows the Get of an active claim's workload. */
  function IdlePlan(c: Claim, snapshots: bool, s: Seen): Plan {
    match s.first
    case Missing => Plan([], Done)
    case Unreadable => Plan([], Fail)
    case Found(wl) =>
      if wl.timeout <= 0 then Plan([], Done)
      else if LastSeen(c).None? then Plan([], After(IDLE_CHECK_INTERVAL))
      else ElapsedPlan(c, wl, LastSeen(c).value, snapshots, s)
  }

  function ActivePlan(c: Claim, snapshots: bool, s: Seen): Plan {
    if c.status.instance.Some? && s.instanceGone then
      Write(CStatus(c.status.(phase := Released, detail := PodGone, endpoint := None)), Done, s)
    else Then(CRead(s.first), IdlePlan(c, snapshots, s))
  }

  function RoutePlan(c: Claim, snapshots: bool, s: Seen): Plan {
    if c.deleting then DeletionPlan(c, snapshots, s)
    else if c.status.phase == Active then ActivePlan(c, snapshots, s)
    else if c.status.phase in {Released, ReleaseFailed} then Plan([], Done)
    else NewClaimPlan(c, s)
  }

  /** One reconcile of the named claim. */
  function ReconcilePlan(name: string, snapshots: bool, s: Seen): Plan {
    match s.claim
    case Failed => Plan([], Fail)
    case Absent => Plan([], Done)
    case Got(c) => Then(CBegin(name), RoutePlan(c, snapshots, s))
  }

  // ---- A reconcile none of whose calls fails does not fail ---------------------------

  lemma BeginningSucceeds(c: Claim, s: Seen)
    requires NoFailure(s)
    ensures NewClaimPlan(c, s).result != Fail
  {
  }

  lemma EndingSucceeds(p: PodRef, s: Seen, last: Act, failed: Plan)
    requires NoFailure(s) && failed.result != Fail
    ensures RevokePlan(last, s).result != Fail && DeletePlan(p, last, s).result != Fail
    ensures SavePlan(p, s, last, failed).result != Fail
    ensures forall destroy :: RemovePlan(p, destroy, s, last).result != Fail
  {
  }

  lemma PlanSucceeds(name: string, snapshots: bool, s: Seen)
    requires NoFailure(s)
    ensures ReconcilePlan(name, snapshots, s).result != Fail
  {
    if s.claim.Got? {
      var c := s.claim.value;
      hide RevokePlan, SavePlan, RemovePlan, NewClaimPlan;
      BeginningSucceeds(c, s);
      var p := if s.tenantPod.Got? then s.tenantPod.value else PodRef("", NO_POD.pod);
      var action := if s.first.Found? then Resolve(s.first.wl.action) else Hibernate;
      EndingSucceeds(p, s, CUnfinalize, Plan([], After(RELEASE_FAILED_REQUEUE)));
      EndingSucceeds(p, s, ReleasedAct(c, action), ReleaseFailedPlan(c, s));
    }
  }
}
