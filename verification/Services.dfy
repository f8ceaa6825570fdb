// The admin service and the gateway together. They share a clock and exchange messages that may
// be lost, repeated, delayed and reordered; each keeps its own database.
module Services {
  import opened Outcomes
  import opened Amounts
  import opened Contract
  import opened Jobs
  import G = Gateway
  import L = Ledger

  // Admin instants are `TICKS` to the gateway's second; `timestamp()` rounds down.
  const TICKS := 1_000_000_000

  function Seconds(t: int): int {
    t / TICKS
  }

  datatype VideoStatus = Pending | Processing | AwaitingApproval | Uploading | Ready | Error | Expired | Quoting
                       | VideoApprovalRequired | VideoRecoveryRequired

  datatype VideoRow = VideoRow(status: VideoStatus, approvedQuote: Option<string>, jobDir: Option<string>, sourcePath: Option<string>)

  datatype CatalogState = Draft | Approved | InUpload | Complete | Replaced | CatalogApprovalRequired | CatalogRecoveryRequired

  datatype CancelMessage = CancelMessage(quote: string, key: string)

  // `mark_job_failed` with its transaction open: the job row is written but not committed, and the
  // writer lock is held while the gateway is asked to cancel.
  datatype OpenFailure = OpenFailure(claim: Claim, approval: bool, recovery: bool, quote: Option<string>, unpaid: bool)

  datatype Services = Services(
    clock: int,
    lease: nat,
    gate: G.Gateway,
    queue: Queue,
    videos: map<string, VideoRow>,
    catalog: map<string, CatalogState>,
    open: Option<OpenFailure>,
    // Every message ever sent stays deliverable.
    activations: set<PaymentLease>,
    cancels: set<CancelMessage>,
    // Cancellations the gateway has answered with `true`.
    confirmed: set<CancelMessage>,
    // History: the claims, and the claims behind the fenced writes, in commit order.
    claims: seq<Claim>,
    writes: seq<Claim>)

  datatype Step =
    | Clock(to: int)
    | Gate(event: G.Event)
    | DeliverActivation(message: PaymentLease)
    | DeliverCancel(cancel: CancelMessage)
    | ClaimJob(id: string, worker: string)
    | RenewJob(claim: Claim)
    | SendActivation(claim: Claim)
    | FencedWrite(claim: Claim)
    | SucceedJob(claim: Claim)
    | RetryJob(claim: Claim, delay: int)
    | InterruptJob(id: string, worker: string)
    | RecoverJobs
    | RequeueJob(id: string)
    | EnqueueJob(id: string, kind: JobKind, forVideo: Option<string>, max: nat, paymentQuote: Option<string>)
    | WriteVideo(video: string, row: VideoRow)
    | WriteCatalog(approvals: map<string, CatalogState>)
    // `approval`, `recovery`: which marks the error text carries.
    | FailBegin(claim: Claim, approval: bool, recovery: bool)
    | FailReply
    | FailCommit
    | FailRollback

  function Start(network: string, guard: bool, clock: int, lease: nat): Services {
    Services(clock, lease, G.Start(network, guard, Seconds(clock)), map[], map[], map[], None, {}, {}, {}, [], [])
  }

  // COALESCE(j.payment_quote_id, v.approved_quote_id)
  function QuoteOf(s: Services, row: JobRow): Option<string> {
    if row.paymentQuote.Some? then row.paymentQuote
    else if row.video.Some? && row.video.value in s.videos then s.videos[row.video.value].approvedQuote
    else None
  }

  function KeyOf(c: Claim): string {
    LeaseKey(c.id, c.owner, c.attempts)
  }

  // Ordinary clients and the gateway's own tasks; the clock, activations and cancellations reach the
  // gateway through the steps that name them.
  predicate Internal(e: G.Event) {
    !e.Tick? && !e.ActivateRequest? && !e.CancelRequest?
  }

  // -- Claims and their writes --

  predicate Fenced(s: Services, c: Claim) {
    c in s.claims && Owns(s.queue, s.clock, c)
  }

  function ActivationOf(s: Services, c: Claim): PaymentLease
    requires Owns(s.queue, s.clock, c) && QuoteOf(s, s.queue[c.id]).Some?
  {
    PaymentLease(QuoteOf(s, s.queue[c.id]).value, c.id, c.owner, c.attempts, Seconds(s.queue[c.id].expires.value))
  }

  function DoClaim(s: Services, id: string, worker: string): Services
    requires id in s.queue
  {
    var q := Acquire(s.queue, s.clock, s.lease, worker, id);
    s.(queue := q, claims := s.claims + [ClaimOf(q, worker, id)])
  }

  function DoActivate(s: Services, c: Claim): Services {
    if Fenced(s, c) && Pays(s.queue[c.id].kind) && QuoteOf(s, s.queue[c.id]).Some?
    then s.(activations := s.activations + {ActivationOf(s, c)}) else s
  }

  function Write(s: Services, c: Claim, q: Queue): Services {
    if Fenced(s, c) then s.(queue := q, writes := s.writes + [c]) else s
  }

  // A ready video's upload needs its local files no longer.
  function VideosCleared(videos: map<string, VideoRow>, c: Claim): map<string, VideoRow> {
    if c.kind.UploadVideo? && c.video.Some? && c.video.value in videos && videos[c.video.value].status == Ready
    then videos[c.video.value := videos[c.video.value].(jobDir := None, sourcePath := None)]
    else videos
  }

  function DoSucceed(s: Services, c: Claim): Services {
    Write(s, c, Succeed(s.queue, s.clock, c)).(videos := if Fenced(s, c) then VideosCleared(s.videos, c) else s.videos)
  }

  // -- `mark_job_failed` --

  // `recovery` before the gateway is asked.
  predicate Recovering(c: Claim, approval: bool, recovery: bool) {
    recovery || (approval && c.attempts > 1 && Pays(c.kind))
  }

  predicate Final(c: Claim, approval: bool, recovery: bool) {
    c.attempts >= c.maxAttempts || Recovering(c, approval, recovery) || approval
  }

  function DoFailBegin(s: Services, c: Claim, approval: bool, recovery: bool): Services
    requires c.id in s.queue
  {
    var quote := if approval && Pays(c.kind) then QuoteOf(s, s.queue[c.id]) else None;
    s.(open := Some(OpenFailure(c, approval, Recovering(c, approval, recovery), quote, false)),
       cancels := if quote.Some? then s.cancels + {CancelMessage(quote.value, KeyOf(c))} else s.cancels)
  }

  // The cancellation's answer overrides what the error text said.
  predicate RecoveryAfter(o: OpenFailure) {
    if o.quote.Some? then !o.unpaid else o.recovery
  }

  function VideoStatusAfter(o: OpenFailure, approved: bool): VideoStatus {
    if RecoveryAfter(o) || (approved && !o.approval && o.claim.kind.UploadVideo?) then VideoRecoveryRequired
    else if o.approval then VideoApprovalRequired
    else Error
  }

  function CatalogStateAfter(o: OpenFailure): CatalogState {
    if o.approval && !RecoveryAfter(o) then CatalogApprovalRequired else CatalogRecoveryRequired
  }

  function CatalogAfter(s: Services, o: OpenFailure, row: JobRow): map<string, CatalogState> {
    if o.claim.kind.FinalizeCatalog? && row.paymentQuote.Some? && row.paymentQuote.value in s.catalog
    then s.catalog[row.paymentQuote.value := CatalogStateAfter(o)] else s.catalog
  }

  function VideosAfter(s: Services, o: OpenFailure): map<string, VideoRow> {
    if o.claim.video.Some? && o.claim.video.value in s.videos then
      var v := s.videos[o.claim.video.value];
      s.videos[o.claim.video.value := v.(status := VideoStatusAfter(o, v.approvedQuote.Some?))]
    else s.videos
  }

  // Ownership was checked when the transaction opened, and nobody could write since.
  function DoFailCommit(s: Services, o: OpenFailure): Services
    requires o.claim.id in s.queue
  {
    var row := s.queue[o.claim.id];
    s.(open := None, queue := s.queue[o.claim.id := Released(row, Failed)], writes := s.writes + [o.claim],
       catalog := CatalogAfter(s, o, row), videos := VideosAfter(s, o))
  }

  // -- Steps --

  function Cancelled(g: G.Gateway, m: CancelMessage): L.Outcome<bool> {
    L.CancelUnpaid(g.world.ledger, g.now, m.quote, m.key)
  }

  // What a step asks of the gateway.
  function GateEvent(s: Services, step: Step): Option<G.Event> {
    match step
    case Clock(to) => if to > s.clock then Some(G.Tick(Seconds(to))) else None
    case Gate(e) => if Internal(e) then Some(e) else None
    case DeliverActivation(m) => if m in s.activations then Some(G.ActivateRequest(m)) else None
    case DeliverCancel(m) => if m in s.cancels then Some(G.CancelRequest(m.quote, m.key)) else None
    case _ => None
  }

  function GateAfter(s: Services, step: Step): G.Gateway {
    var e := GateEvent(s, step);
    if e.Some? then G.Apply(s.gate, e.value) else s.gate
  }

  // The admin database's part of a step. Only one writer at a time: an open failure shuts out every
  // other write.
  function Admin(s: Services, step: Step): Services {
    match step
    case Clock(to) => if to > s.clock then s.(clock := to) else s
    case DeliverCancel(m) =>
      if m in s.cancels && Cancelled(s.gate, m).Done? && Cancelled(s.gate, m).value
      then s.(confirmed := s.confirmed + {m}) else s
    case SendActivation(c) => DoActivate(s, c)
    case FailReply =>
      if s.open.Some? && s.open.value.quote.Some?
         && CancelMessage(s.open.value.quote.value, KeyOf(s.open.value.claim)) in s.confirmed
      then s.(open := Some(s.open.value.(unpaid := true))) else s
    case FailCommit => if s.open.Some? && s.open.value.claim.id in s.queue then DoFailCommit(s, s.open.value) else s
    case FailRollback => s.(open := None)
    case _ => if s.open.Some? then s else Writer(s, step)
  }

  function Writer(s: Services, step: Step): Services {
    match step
    case ClaimJob(id, worker) => if IsNext(s.queue, s.clock, id) then DoClaim(s, id, worker) else s
    case RenewJob(c) => Write(s, c, Renew(s.queue, s.clock, s.lease, c))
    case FencedWrite(c) => Write(s, c, s.queue)
    case SucceedJob(c) => DoSucceed(s, c)
    case RetryJob(c, delay) => Write(s, c, RetryLater(s.queue, s.clock, c, delay))
    case InterruptJob(id, worker) => s.(queue := Interrupt(s.queue, s.clock, id, worker))
    case RecoverJobs => s.(queue := Recover(s.queue, s.clock))
    case RequeueJob(id) => s.(queue := Requeue(s.queue, s.clock, id))
    case EnqueueJob(id, kind, video, max, quote) =>
      if IsJobId(id) then s.(queue := Enqueue(s.queue, s.clock, id, kind, video, max, quote)) else s
    case WriteVideo(video, row) => s.(videos := s.videos[video := row])
    case WriteCatalog(approvals) => s.(catalog := approvals)
    case FailBegin(c, approval, recovery) =>
      if Fenced(s, c) && Final(c, approval, recovery) then DoFailBegin(s, c, approval, recovery) else s
    case _ => s
  }

  function Apply(s: Services, step: Step): Services {
    Admin(s, step).(gate := GateAfter(s, step))
  }

  function Run(s: Services, steps: seq<Step>): Services {
    if |steps| == 0 then s else Apply(Run(s, steps[..|steps| - 1]), steps[|steps| - 1])
  }
}
