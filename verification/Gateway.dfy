// The payment gateway as a step machine: the upload coordinator, the controlled signer and the
// journal in one process, the chain beside it, and restarts that lose all but the journal.
// `Apply` is total: an event that is not enabled changes nothing, so every sequence of events is
// a run, in any interleaving and with any loss of work between two steps.
module Gateway {
  import opened Outcomes
  import opened Amounts
  import opened Contract
  import opened Ledger
  import opened Signer

  datatype Reference = Reference(network: string, hash: string)

  // What the chain did with a mined transaction. `storage` is what it moved to the payment vault.
  datatype Mined = Mined(success: bool, storage: nat, gas: nat)

  // Where the signing of the current call stands; `i` is the transaction's journal row.
  datatype Stage = Idle | Intended(i: nat) | Recorded(i: nat) | Sent(i: nat)

  datatype ErrorClass = NeedsApproval | IsPartial | NeedsRecovery

  datatype Phase =
    | Preparation
    | Signing(calls: seq<Call>, next: nat, stage: Stage, paid: Receipt, hashes: seq<string>)
    | Storing(paid: Receipt, resumed: bool)
    // The storage is complete; what is left is the completion write.
    | Succeeding(receipt: Receipt, resumed: bool)
    | Failing(failure: ErrorClass, afterResume: bool)
    | Finished

  datatype Task = Task(run: nat, leaseKey: string, phase: Phase)

  datatype Session = Session(paid: Receipt, expires: int)

  // History: which run of `pay`, at which call, reserved the journal row of the same index.
  datatype Origin = Origin(run: nat, step: nat, call: Call)

  // What a restart cannot lose: the journal, and the chain with the bytes it was ever sent.
  datatype World = World(
    ledger: Ledger,
    origins: seq<Origin>,
    broadcast: set<Reference>,
    mined: map<Reference, Mined>)

  // `running`, `resumes` and `lock` live in the process; `nextRun` only names runs.
  datatype Gateway = Gateway(
    now: int,
    world: World,
    running: map<UploadId, Task>,
    resumes: map<UploadId, Session>,
    lock: Option<UploadId>,
    nextRun: nat)

  datatype Event =
    | Tick(to: int)
    | ApproveRequest(approval: PaymentApproval)
    | ActivateRequest(lease: PaymentLease)
    | CancelRequest(quote: string, key: string)
    // `dropped`: the caller went away after the admission committed, before the task was spawned.
    | UploadRequest(quote: string, sha256: string, size: nat, mode: string, leaseKey: string, dropped: bool)
    | PayBegin(id: UploadId, prepared: Prepared)
    | ReserveStep(id: UploadId, tx: string, nonce: nat, gasUpper: nat)
    | SignStep(id: UploadId, hash: string)
    | SendStep(id: UploadId)
    | MineStep(i: nat, outcome: Mined)
    | SettleStep(id: UploadId)
    | PayEnd(id: UploadId)
    // Any error or deadline before the task has its result.
    | Abort(id: UploadId, failure: ErrorClass)
    | StoreComplete(id: UploadId)
    | StorePartial(id: UploadId)
    // `written`: whether the journal accepted the final state.
    | FinishStep(id: UploadId, written: bool)
    // The completion write of a resumed task lies within its deadline: the task goes on to the
    // recovery write when the journal refuses it, and also when it commits but the deadline falls
    // before its answer.
    | LoseCompletion(id: UploadId, written: bool)
    | RemoveStep(id: UploadId)
    | ResumeRequest(id: UploadId)
    | SweepResumes
    | Restart(network: string)

  function Start(network: string, guard: bool, now: int): Gateway {
    Gateway(now, World(Ledger(network, guard, map[], map[], map[], []), [], {}, map[]), map[], map[], None, 0)
  }

  const RESUME_SECONDS := 3600
  const MAX_RESUMES := 4

  function RefOf(t: TxRow): Reference
    requires t.hash.Some?
  {
    Reference(t.network, t.hash.value)
  }

  // The contracts move tokens only on success: an allowance moves none, a chunk moves its sum.
  predicate ChainAllows(c: Call, m: Mined) {
    && (!m.success ==> m.storage == 0)
    && (c.TokenApproval? ==> m.storage == 0)
    && (c.WaveChunk? && m.success ==> m.storage == Upper(c))
  }

  // What `pay` settles: nothing for an allowance or a revert, the chunk's sum, or the amount the
  // merkle event reports.
  function SettledStorage(c: Call, m: Mined): nat {
    if !m.success then 0
    else match c
      case TokenApproval(_) => 0
      case WaveChunk(_) => Upper(c)
      case MerkleBatch(_) => m.storage
  }

  function ClassOf(f: Failure): ErrorClass {
    match f
    case ApprovalCancelled => NeedsApproval
    case ContentChanged => NeedsApproval
    case AmountOverflow => NeedsApproval
    case StorageCapExceeded => NeedsApproval
    case GasCapExceeded => NeedsApproval
    case _ => NeedsRecovery
  }

  function WithLedger(g: Gateway, l: Ledger): Gateway {
    g.(world := g.world.(ledger := l))
  }

  function WithTask(g: Gateway, id: UploadId, t: Task): Gateway {
    g.(running := g.running[id := t])
  }

  // The task leaves with an error; dropping its future releases the signer lock.
  function Fail(g: Gateway, id: UploadId, c: ErrorClass, afterResume: bool): Gateway
    requires id in g.running
  {
    WithTask(g, id, g.running[id].(phase := Failing(c, afterResume))).(lock := if g.lock == Some(id) then None else g.lock)
  }

  function Begin(g: Gateway, id: UploadId, prepared: Prepared): Gateway
    requires id in g.running
  {
    var upper := StorageUpper(prepared);
    if upper.None? then Fail(g, id, NeedsRecovery, false)
    else
      var checked := CheckStorage(g.world.ledger, g.now, id.approval, upper.value);
      if checked.Err? then Fail(g, id, ClassOf(checked.error), false)
      else WithTask(g, id, g.running[id].(phase := Signing(Calls(prepared), 0, Idle, Receipt(0, 0), []))).(lock := Some(id))
  }

  function NextReservation(g: Gateway, id: UploadId, tx: string, nonce: nat, gasUpper: nat): Reservation
    requires id in g.running && g.running[id].phase.Signing?
    requires g.running[id].phase.next < |g.running[id].phase.calls|
  {
    var p := g.running[id].phase;
    Reservation(id.approval, id, tx, nonce, Upper(p.calls[p.next]), gasUpper)
  }

  function DoReserve(g: Gateway, id: UploadId, tx: string, nonce: nat, gasUpper: nat): Gateway
    requires id in g.running && g.running[id].phase.Signing?
    requires g.running[id].phase.next < |g.running[id].phase.calls|
  {
    var t := g.running[id];
    var p := t.phase;
    var o := Reserve(g.world.ledger, g.now, NextReservation(g, id, tx, nonce, gasUpper));
    if o.Failed? then Fail(g, id, ClassOf(o.error), false)
    else WithTask(g, id, t.(phase := p.(stage := Intended(|g.world.ledger.txs|)))).(
           world := g.world.(
             ledger := o.tables,
             origins := g.world.origins + [Origin(t.run, p.next, p.calls[p.next])]))
  }

  function DoSign(g: Gateway, id: UploadId, i: nat, hash: string): Gateway
    requires id in g.running && g.running[id].phase.Signing?
    requires i < |g.world.ledger.txs|
  {
    var t := g.running[id];
    var o := RecordSigned(g.world.ledger, g.now, g.world.ledger.txs[i].id, hash);
    if o.Failed? then Fail(g, id, ClassOf(o.error), false)
    else WithLedger(WithTask(g, id, t.(phase := t.phase.(stage := Recorded(i)))), o.tables)
  }

  // After the receipt: settle what was spent, then go on, or stop when the call reverted.
  function DoSettle(g: Gateway, id: UploadId, i: nat, m: Mined): Gateway
    requires id in g.running && g.running[id].phase.Signing?
    requires g.running[id].phase.next < |g.running[id].phase.calls|
    requires i < |g.world.ledger.txs| && g.world.ledger.txs[i].hash.Some?
  {
    var t := g.running[id];
    var p := t.phase;
    var hash := g.world.ledger.txs[i].hash.value;
    var storage := SettledStorage(p.calls[p.next], m);
    var o := Settle(g.world.ledger, hash, storage, m.gas);
    if o.Failed? then Fail(g, id, ClassOf(o.error), false)
    else
      var settled := WithLedger(g, o.tables);
      if !m.success then Fail(settled, id, NeedsRecovery, false)
      else WithTask(settled, id, t.(phase := p.(
             next := p.next + 1,
             stage := Idle,
             paid := Receipt(p.paid.storage + storage, p.paid.gas + m.gas),
             hashes := p.hashes + [hash])))
  }

  function FinalState(g: Gateway, id: UploadId, p: Phase): UploadState
    requires p.Failing?
  {
    match p.failure
    case IsPartial => Partial
    case NeedsApproval =>
      if p.afterResume || HasStorageIntent(g.world.ledger, id) then PaymentRecoveryRequired else ApprovalRequired
    case NeedsRecovery => PaymentRecoveryRequired
  }

  function Written(g: Gateway, id: UploadId, p: Phase): Ledger
    requires p.Failing? || p.Succeeding?
  {
    if p.Succeeding? then Finish(g.world.ledger, id, Complete, Some(p.receipt))
    else Finish(g.world.ledger, id, FinalState(g, id, p), None)
  }

  function Live(resumes: map<UploadId, Session>, now: int): map<UploadId, Session> {
    map u | u in resumes && resumes[u].expires > now :: resumes[u]
  }

  // `keep_resume`: at most four sessions are retained.
  function Retained(kept: Gateway, id: UploadId): Gateway
    requires id in kept.running && kept.running[id].phase.Storing?
  {
    var p := kept.running[id].phase;
    if |kept.resumes| >= MAX_RESUMES then Fail(kept, id, NeedsRecovery, p.resumed)
    else Fail(kept.(resumes := kept.resumes[id := Session(p.paid, kept.now + RESUME_SECONDS)]), id, IsPartial, p.resumed)
  }

  function DoStorePartial(g: Gateway, id: UploadId): Gateway
    requires id in g.running && g.running[id].phase.Storing?
  {
    Retained(g.(resumes := Live(g.resumes, g.now)), id)
  }

  function Admission(g: Gateway, e: Event): Outcome<bool>
    requires e.UploadRequest?
  {
    Admit(g.world.ledger, g.now, UploadId(e.quote, e.sha256, e.mode), e.quote, e.sha256, e.size, e.mode, e.leaseKey)
  }

  // Held under the `running` mutex from the lookup to the insertion. The earlier reads of a stored
  // result or a partial state answer from the journal and change nothing.
  function DoUpload(g: Gateway, e: Event): Gateway
    requires e.UploadRequest?
  {
    var id := UploadId(e.quote, e.sha256, e.mode);
    var o := Admission(g, e);
    if id in g.running || o.Failed? then g
    else if !o.value || e.dropped then WithLedger(g, o.tables)
    else WithLedger(g, o.tables).(
            running := g.running[id := Task(g.nextRun, e.leaseKey, Preparation)],
            nextRun := g.nextRun + 1)
  }

  function DoResume(g: Gateway, id: UploadId): Gateway
    requires id in g.resumes
  {
    var taken := g.(resumes := map u | u in g.resumes && u != id :: g.resumes[u]);
    if g.resumes[id].expires <= g.now then taken
    else taken.(running := g.running[id := Task(g.nextRun, "", Storing(g.resumes[id].paid, true))], nextRun := g.nextRun + 1)
  }

  function Apply(g: Gateway, e: Event): Gateway {
    match e
    case Tick(to) => if to > g.now then g.(now := to) else g
    case ApproveRequest(a) => WithLedger(g, Approve(g.world.ledger, g.now, a).Tables(g.world.ledger))
    case ActivateRequest(lease) => WithLedger(g, Activate(g.world.ledger, g.now, lease).Tables(g.world.ledger))
    case CancelRequest(q, key) => WithLedger(g, CancelUnpaid(g.world.ledger, g.now, q, key).Tables(g.world.ledger))
    case UploadRequest(_, _, _, _, _, _) => DoUpload(g, e)
    case PayBegin(id, prepared) =>
      if id in g.running && g.running[id].phase.Preparation? && g.lock.None? && Consistent(prepared) then Begin(g, id, prepared) else g
    case ReserveStep(id, tx, nonce, gasUpper) =>
      if AtCall(g, id) && g.running[id].phase.stage.Idle? then DoReserve(g, id, tx, nonce, gasUpper) else g
    case SignStep(id, hash) =>
      if AtCall(g, id) && g.running[id].phase.stage.Intended? && g.running[id].phase.stage.i < |g.world.ledger.txs|
      then DoSign(g, id, g.running[id].phase.stage.i, hash) else g
    case SendStep(id) =>
      if AtCall(g, id) && g.running[id].phase.stage.Recorded? && HasHash(g, g.running[id].phase.stage.i) then
        var t := g.running[id];
        var i := t.phase.stage.i;
        WithTask(g, id, t.(phase := t.phase.(stage := Sent(i)))).(
          world := g.world.(broadcast := g.world.broadcast + {RefOf(g.world.ledger.txs[i])}))
      else g
    case MineStep(i, outcome) =>
      if HasHash(g, i) && i < |g.world.origins| && RefOf(g.world.ledger.txs[i]) in g.world.broadcast
         && RefOf(g.world.ledger.txs[i]) !in g.world.mined && ChainAllows(g.world.origins[i].call, outcome)
      then g.(world := g.world.(mined := g.world.mined[RefOf(g.world.ledger.txs[i]) := outcome])) else g
    case SettleStep(id) =>
      if AtCall(g, id) && g.running[id].phase.stage.Sent? && HasHash(g, g.running[id].phase.stage.i)
         && RefOf(g.world.ledger.txs[g.running[id].phase.stage.i]) in g.world.mined
      then DoSettle(g, id, g.running[id].phase.stage.i, g.world.mined[RefOf(g.world.ledger.txs[g.running[id].phase.stage.i])]) else g
    case PayEnd(id) =>
      if id in g.running && g.running[id].phase.Signing? && g.running[id].phase.next == |g.running[id].phase.calls|
      then WithTask(g, id, g.running[id].(phase := Storing(g.running[id].phase.paid, false))).(lock := None) else g
    case Abort(id, c) =>
      if id in g.running && (g.running[id].phase.Preparation? || g.running[id].phase.Signing? || g.running[id].phase.Storing?)
         && c != IsPartial
      then Fail(g, id, c, g.running[id].phase.Storing? && g.running[id].phase.resumed) else g
    case StoreComplete(id) =>
      if id in g.running && g.running[id].phase.Storing?
      then WithTask(g, id, g.running[id].(phase := Succeeding(g.running[id].phase.paid, g.running[id].phase.resumed))) else g
    case StorePartial(id) =>
      if id in g.running && g.running[id].phase.Storing? then DoStorePartial(g, id) else g
    case FinishStep(id, written) =>
      if id in g.running && (g.running[id].phase.Failing? || Concludes(g.running[id].phase, written)) then
        WithLedger(WithTask(g, id, g.running[id].(phase := Finished)),
                   if written then Written(g, id, g.running[id].phase) else g.world.ledger)
      else g
    case LoseCompletion(id, written) =>
      if id in g.running && g.running[id].phase.Succeeding? && g.running[id].phase.resumed then
        WithLedger(WithTask(g, id, g.running[id].(phase := Failing(NeedsRecovery, true))),
                   if written then Written(g, id, g.running[id].phase) else g.world.ledger)
      else g
    case RemoveStep(id) =>
      if id in g.running && g.running[id].phase.Finished?
      then g.(running := map u | u in g.running && u != id :: g.running[u]) else g
    case ResumeRequest(id) => if id !in g.running && id in g.resumes then DoResume(g, id) else g
    case SweepResumes => g.(resumes := Live(g.resumes, g.now))
    case Restart(network) =>
      WithLedger(g, Initialize(g.world.ledger, network)).(running := map[], resumes := map[], lock := None)
  }

  // A task of `upload` ends with its completion write, accepted or not; a resumed one only with an
  // accepted one.
  predicate Concludes(p: Phase, written: bool) {
    p.Succeeding? && (written || !p.resumed)
  }

  predicate AtCall(g: Gateway, id: UploadId) {
    id in g.running && g.running[id].phase.Signing? && g.running[id].phase.next < |g.running[id].phase.calls|
  }

  predicate HasHash(g: Gateway, i: nat) {
    i < |g.world.ledger.txs| && g.world.ledger.txs[i].hash.Some?
  }

  function Run(g: Gateway, events: seq<Event>): Gateway {
    if |events| == 0 then g else Apply(Run(g, events[..|events| - 1]), events[|events| - 1])
  }
}
