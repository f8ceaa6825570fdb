// Catalog publication as steps over both services: a quote is drafted, approved, paid for by its
// finalization job, and published. One quote at a time may be pending or uncertain.
module Catalog {
  import opened Outcomes
  import opened Amounts
  import opened Contract
  import opened Jobs
  import opened Services
  import ST = ServicesTheorems

  // `created` is the row's created_at; `revision` is what the catalog was when it was quoted.
  datatype Plan = Plan(quote: string, maxStorageAtto: string, maxGasWei: string, revision: int, created: int)

  // What an administrator confirmed, at which revision, and whether the gateway took the approval.
  datatype Confirmation = Confirmation(maxStorageAtto: string, maxGasWei: string, revision: int, accepted: bool)

  // How far a claim of the finalization job has come.
  datatype Progress = Cleared | Started | Ended

  // What a published address names: the documents stored under a quote, or whatever the file or the
  // configuration named before the first row.
  datatype Addresses = Inherited | Stored(quote: string, revision: int, withVideo: Option<string>)

  // The catalog_snapshot row: the revision its documents were built from and, when a video's upload
  // published it, the video; and `pending` when they are not the documents at its addresses.
  datatype Snapshot = Snapshot(revision: int, withVideo: Option<string>, addresses: Addresses, pending: bool)

  datatype Catalog = Catalog(
    base: Services,
    plans: map<string, Plan>,
    // History: the job each approved quote was given.
    jobOf: map<string, string>,
    // History: what each approved quote was confirmed with.
    confirmed: map<string, Confirmation>,
    progress: map<Claim, Progress>,
    revision: int,
    snapshot: Option<Snapshot>,
    // The catalog state file the streaming service reads.
    file: Option<Snapshot>,
    // History: the published snapshots, in commit order.
    published: seq<Snapshot>)

  datatype CatalogStep =
    | Other(step: Step)
    | Bump
    | Prepare(author: Option<Claim>, plan: Plan)
    | ApproveQuote(quote: string, maxStorageAtto: string, maxGasWei: string, accepted: bool, job: string, max: nat)
    | ReadStatus(claim: Claim)
    | StartUpload(claim: Claim)
    | CompleteUpload(claim: Claim)
    | SucceedFinal(claim: Claim)
    // The last transaction of a video's upload; a ready video is a new catalog revision.
    | PublishVideo(claim: Claim, plan: Plan)
    // An administrator's change of what is public: the documents as they are now, not yet paid for.
    | Refresh
    | RestoreFile
    | Resume(quote: string)

  function Begin(base: Services, revision: int): Catalog {
    Catalog(base, map[], map[], map[], map[], revision, None, None, [])
  }

  // What `require_reconciled_catalog` refuses to add a quote to.
  predicate Unreconciled(state: CatalogState) {
    state in {Approved, InUpload, CatalogRecoveryRequired}
  }

  predicate Active(state: CatalogState) {
    state == Draft || Unreconciled(state)
  }

  predicate Reconciled(approvals: map<string, CatalogState>) {
    forall q :: q in approvals ==> !Unreconciled(approvals[q])
  }

  function Drafted(approvals: map<string, CatalogState>, quote: string): map<string, CatalogState> {
    (map q | q in approvals :: if approvals[q] == Draft then Replaced else approvals[q])[quote := Draft]
  }

  // `begin_fenced`: a caller that is a job must still own it.
  predicate MayWrite(s: Services, author: Option<Claim>) {
    s.open.None? && (author.Some? ==> Fenced(s, author.value))
  }

  predicate CanPrepare(c: Catalog, author: Option<Claim>, plan: Plan) {
    && MayWrite(c.base, author)
    && plan.revision == c.revision
    && Reconciled(c.base.catalog)
    && plan.quote !in c.base.catalog
  }

  predicate CanApprove(c: Catalog, quote: string, maxStorageAtto: string, maxGasWei: string, accepted: bool, job: string) {
    && c.base.open.None?
    && quote in c.base.catalog && quote in c.plans
    && c.base.catalog[quote] == Draft
    && maxStorageAtto == c.plans[quote].maxStorageAtto && maxGasWei == c.plans[quote].maxGasWei
    && c.plans[quote].revision == c.revision
    && accepted
    && IsJobId(job) && job !in c.base.queue && !Conflicts(c.base.queue, FinalizeCatalog, None)
  }

  // The quote of a claimed finalization job.
  function QuoteFor(c: Catalog, claim: Claim): Option<string> {
    if claim.id in c.base.queue && claim.kind.FinalizeCatalog? then c.base.queue[claim.id].paymentQuote else None
  }

  predicate HasPlan(c: Catalog, claim: Claim) {
    QuoteFor(c, claim).Some? && QuoteFor(c, claim).value in c.base.catalog && QuoteFor(c, claim).value in c.plans
  }

  // The first statement of `finalize`; a pending state that is not ours to go on with is an error. A
  // worker that is failing the job is past it.
  function DoRead(c: Catalog, claim: Claim): Catalog {
    if claim in c.base.claims && HasPlan(c, claim) && claim !in c.progress
       && (c.base.open.Some? ==> c.base.open.value.claim != claim) then
      var state := c.base.catalog[QuoteFor(c, claim).value];
      if state == Complete then c.(progress := c.progress[claim := Ended])
      else if state in {Approved, InUpload} && c.plans[QuoteFor(c, claim).value].revision == c.revision
      then c.(progress := c.progress[claim := Cleared])
      else c
    else c
  }

  predicate At(c: Catalog, claim: Claim, at: Progress) {
    claim in c.progress && c.progress[claim] == at
  }

  predicate CanStart(c: Catalog, claim: Claim) {
    HasPlan(c, claim) && At(c, claim, Cleared) && MayWrite(c.base, Some(claim))
  }

  predicate CanComplete(c: Catalog, claim: Claim) {
    && HasPlan(c, claim) && At(c, claim, Started) && MayWrite(c.base, Some(claim))
    && c.plans[QuoteFor(c, claim).value].revision == c.revision
  }

  predicate CanPublish(c: Catalog, claim: Claim, plan: Plan) {
    && MayWrite(c.base, Some(claim)) && claim.kind.UploadVideo?
    && claim.video.Some? && claim.video.value in c.base.videos
    && plan.revision == c.revision
  }

  function Published(c: Catalog, s: Snapshot): Catalog {
    c.(snapshot := Some(s), published := c.published + [s])
  }

  // Documents that were stored and paid for under `quote`.
  function Paid(quote: string, revision: int, withVideo: Option<string>): Snapshot {
    Snapshot(revision, withVideo, Stored(quote, revision, withVideo), false)
  }

  // `refresh_local_catalog_from_db`: new documents beside the previous row's addresses.
  function Refreshed(revision: int, previous: Option<Snapshot>): Snapshot {
    Snapshot(revision, None, if previous.Some? then previous.value.addresses else Inherited, true)
  }

  // A catalog transaction is the writes it makes in the admin database, in order.
  function Base(c: Catalog, step: Step): Catalog {
    c.(base := Apply(c.base, step))
  }

  function With(c: Catalog, quote: string, state: CatalogState): Catalog {
    Base(c, WriteCatalog(c.base.catalog[quote := state]))
  }

  // ORDER BY created_at DESC LIMIT 1
  predicate IsLatestPaused(c: Catalog, quote: string) {
    && quote in c.base.catalog && quote in c.plans && c.base.catalog[quote] == CatalogRecoveryRequired
    && (forall q :: q in c.base.catalog && q in c.plans && c.base.catalog[q] == CatalogRecoveryRequired ==>
          c.plans[q].created <= c.plans[quote].created)
  }

  predicate CanResume(c: Catalog, quote: string) {
    && c.base.open.None?
    && IsLatestPaused(c, quote)
    && quote in c.jobOf && c.jobOf[quote] in c.base.queue
    && c.base.queue[c.jobOf[quote]].status == Failed
    && !Conflicts(c.base.queue, FinalizeCatalog, None)
  }

  // Steps the other parts of the service take by themselves. A claim whose `finalize` has returned has
  // no error to report.
  predicate Ordinary(c: Catalog, step: Step) {
    match step
    case WriteCatalog(_) => false
    case EnqueueJob(_, kind, _, _, _) => kind != FinalizeCatalog
    case RequeueJob(id) => id in c.base.queue && c.base.queue[id].kind != FinalizeCatalog
    case SucceedJob(claim) => claim.kind != FinalizeCatalog
    case RetryJob(claim, _) => !At(c, claim, Ended)
    case FailBegin(claim, _, _) => !At(c, claim, Ended)
    case _ => true
  }

  function ReadyVideo(c: Catalog, claim: Claim): Step
    requires claim.video.Some? && claim.video.value in c.base.videos
  {
    WriteVideo(claim.video.value, c.base.videos[claim.video.value].(status := Ready))
  }

  function Moved(c: Catalog, e: CatalogStep): Catalog {
    match e
    case Other(step) => if Ordinary(c, step) then Base(c, step) else c
    case Bump => c.(revision := c.revision + 1)
    case Prepare(author, plan) =>
      if CanPrepare(c, author, plan)
      then Base(c, WriteCatalog(Drafted(c.base.catalog, plan.quote))).(plans := c.plans[plan.quote := plan])
      else c
    case ApproveQuote(quote, storage, gas, accepted, job, max) =>
      if CanApprove(c, quote, storage, gas, accepted, job)
      then Base(With(c, quote, Approved), EnqueueJob(job, FinalizeCatalog, None, max, Some(quote))).(
             jobOf := c.jobOf[quote := job], confirmed := c.confirmed[quote := Confirmation(storage, gas, c.revision, accepted)])
      else c
    case ReadStatus(claim) => DoRead(c, claim)
    case StartUpload(claim) =>
      if CanStart(c, claim)
      then With(c, QuoteFor(c, claim).value, InUpload).(progress := c.progress[claim := Started]) else c
    case CompleteUpload(claim) =>
      if CanComplete(c, claim)
      then Published(With(c, QuoteFor(c, claim).value, Complete).(progress := c.progress[claim := Ended]),
                     Paid(QuoteFor(c, claim).value, c.plans[QuoteFor(c, claim).value].revision, None))
      else c
    case SucceedFinal(claim) => if At(c, claim, Ended) then Base(c, SucceedJob(claim)) else c
    case PublishVideo(claim, plan) =>
      if CanPublish(c, claim, plan)
      then Published(Base(Base(c, FencedWrite(claim)), ReadyVideo(c, claim)),
                     Paid(plan.quote, plan.revision, claim.video)).(revision := c.revision + 1)
      else c
    case Refresh => if c.base.open.None? then Published(c, Refreshed(c.revision, c.snapshot)) else c
    case RestoreFile => if c.base.open.None? && c.snapshot.Some? then c.(file := c.snapshot) else c
    case Resume(quote) =>
      if CanResume(c, quote) then With(Base(c, RequeueJob(c.jobOf[quote])), quote, Approved) else c
  }

  function Runs(c: Catalog, steps: seq<CatalogStep>): Catalog {
    if |steps| == 0 then c else Moved(Runs(c, steps[..|steps| - 1]), steps[|steps| - 1])
  }
}
