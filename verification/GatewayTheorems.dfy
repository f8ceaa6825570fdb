// What the gateway promises over every run: any interleaving of requests, task steps, chain steps
// and restarts, from any state the gateway can be in.
module GatewayTheorems {
  import opened Outcomes
  import opened Amounts
  import opened Contract
  import opened Sums
  import opened Ledger
  import opened Signer
  import opened Gateway
  import opened GatewayInvariant
  import opened GatewaySteps
  import opened GatewaySigning
  import LI = LedgerInvariant

  // -- Nothing moves backwards --

  ghost predicate Forward(g: Gateway, h: Gateway) {
    && g.now <= h.now
    && LI.Evolves(g.world.ledger, h.world.ledger)
    && ChainGrows(g.world, h.world)
  }

  lemma SameForward(l: Ledger)
    ensures LI.Evolves(l, l)
  {
  }

  lemma {:induction false} LedgerStep(g: Gateway, e: Event)
    requires Inv(g)
    ensures LI.Evolves(g.world.ledger, Apply(g, e).world.ledger)
  {
    hide LI.Inv, LI.Evolves, Approve, Activate, CancelUnpaid, Admit, Reserve, RecordSigned, Settle, Finish, Initialize,
         WorldOk, TasksOk, SessionsOk, CompletesOk, LockOk, RunsOk;
    var l := g.world.ledger;
    SameForward(l);
    match e {
      case ApproveRequest(a) => LI.ApproveEvolves(l, g.now, a);
      case ActivateRequest(lease) => LI.ActivateEvolves(l, g.now, lease);
      case CancelRequest(q, key) => LI.CancelUnpaidEvolves(l, g.now, q, key);
      case UploadRequest(q, sha, size, mode, key, _) =>
        LI.AdmitEvolves(l, g.now, UploadId(q, sha, mode), q, sha, size, mode, key);
      case ReserveStep(id, tx, nonce, gasUpper) =>
        if AtCall(g, id) {
          LI.ReserveEvolves(l, g.now, NextReservation(g, id, tx, nonce, gasUpper));
        }
      case SignStep(id, hash) =>
        if AtCall(g, id) && g.running[id].phase.stage.Intended? && g.running[id].phase.stage.i < |l.txs| {
          LI.RecordSignedEvolves(l, g.now, l.txs[g.running[id].phase.stage.i].id, hash);
        }
      case SettleStep(id) =>
        if AtCall(g, id) && g.running[id].phase.stage.Sent? && HasHash(g, g.running[id].phase.stage.i)
           && RefOf(l.txs[g.running[id].phase.stage.i]) in g.world.mined
        {
          var p := g.running[id].phase;
          var m := g.world.mined[RefOf(l.txs[p.stage.i])];
          LI.SettleEvolves(l, l.txs[p.stage.i].hash.value, SettledStorage(p.calls[p.next], m), m.gas);
        }
      case FinishStep(id, _) =>
        if id in g.running && g.running[id].phase.Succeeding? {
          LI.FinishEvolves(l, id, Complete, Some(g.running[id].phase.receipt));
        } else if id in g.running && g.running[id].phase.Failing? {
          LI.FinishEvolves(l, id, FinalState(g, id, g.running[id].phase), None);
        }
      case LoseCompletion(id, _) =>
        if id in g.running && g.running[id].phase.Succeeding? {
          LI.FinishEvolves(l, id, Complete, Some(g.running[id].phase.receipt));
        }
      case Restart(network) => LI.InitializeEvolves(l, network);
      case _ =>
    }
  }

  lemma {:induction false} StepForward(g: Gateway, e: Event)
    requires Inv(g)
    ensures Forward(g, Apply(g, e))
  {
    hide Inv, LI.Evolves, Approve, Activate, CancelUnpaid, Admit, Reserve, RecordSigned, Settle, Finish, Initialize;
    LedgerStep(g, e);
  }

  lemma {:induction false} RunForward(g: Gateway, events: seq<Event>)
    requires Inv(g)
    ensures Inv(Run(g, events)) && Forward(g, Run(g, events))
  {
    hide Inv, Apply, LI.Evolves;
    if |events| == 0 {
      SameForward(g.world.ledger);
    } else {
      var front, last := events[..|events| - 1], events[|events| - 1];
      RunForward(g, front);
      RunKeeps(g, events);
      StepForward(Run(g, front), last);
      LI.EvolvesTransitive(g.world.ledger, Run(g, front).world.ledger, Run(g, events).world.ledger);
    }
  }

  // -- Money --

  function ChargedStorage(w: World, a: string): TxRow -> nat {
    (t: TxRow) =>
      if t.approval == a && t.hash.Some? && RefOf(t) in w.mined then w.mined[RefOf(t)].storage else 0
  }

  function ChargedGas(w: World, a: string): TxRow -> nat {
    (t: TxRow) =>
      if t.approval == a && t.hash.Some? && RefOf(t) in w.mined then w.mined[RefOf(t)].gas else 0
  }

  // The chain's side of the bargain: a signed transaction costs no more than it could.
  ghost predicate WithinBounds(w: World, i: nat)
    requires i < |w.ledger.txs|
  {
    var t := w.ledger.txs[i];
    t.hash.Some? && RefOf(t) in w.mined ==>
      w.mined[RefOf(t)].storage <= t.storageReserved && w.mined[RefOf(t)].gas <= t.gasReserved
  }

  ghost predicate AllWithinBounds(w: World, a: string) {
    forall i :: 0 <= i < |w.ledger.txs| && w.ledger.txs[i].approval == a ==> WithinBounds(w, i)
  }

  lemma ChargedAtMostHeld(w: World, a: string)
    requires LI.TxsOk(w.ledger) && WorldOk(w) && AllWithinBounds(w, a)
    ensures Sum(w.ledger.txs, ChargedStorage(w, a)) <= Sum(w.ledger.txs, LI.HeldStorageFor(a))
    ensures Sum(w.ledger.txs, ChargedGas(w, a)) <= Sum(w.ledger.txs, LI.HeldGasFor(a))
  {
    forall i | 0 <= i < |w.ledger.txs|
      ensures ChargedStorage(w, a)(w.ledger.txs[i]) <= LI.HeldStorageFor(a)(w.ledger.txs[i])
      ensures ChargedGas(w, a)(w.ledger.txs[i]) <= LI.HeldGasFor(a)(w.ledger.txs[i])
    {
      assert RowOk(w, i) && (w.ledger.txs[i].approval == a ==> WithinBounds(w, i));
    }
    SumMonotone(w.ledger.txs, ChargedStorage(w, a), LI.HeldStorageFor(a));
    SumMonotone(w.ledger.txs, ChargedGas(w, a), LI.HeldGasFor(a));
  }

  // Over every run, whatever crashes: the chain charges an approval no more than its two caps for
  // everything that was ever broadcast under it, whatever it charges any other approval.
  lemma {:induction false} MoneySafety(g: Gateway, events: seq<Event>, a: string)
    requires Inv(g)
    requires AllWithinBounds(Run(g, events).world, a)
    requires a in Run(g, events).world.ledger.approvals
    ensures var w := Run(g, events).world;
      && Sum(w.ledger.txs, ChargedStorage(w, a)) <= w.ledger.approvals[a].definition.StorageCap()
      && Sum(w.ledger.txs, ChargedGas(w, a)) <= w.ledger.approvals[a].definition.GasCap()
  {
    RunKeeps(g, events);
    var w := Run(g, events).world;
    assert LI.ApprovalOk(w.ledger, a);
    ChargedAtMostHeld(w, a);
  }

  ghost predicate IsRowOf(w: World, i: int, r: Reference) {
    0 <= i < |w.ledger.txs| && w.ledger.txs[i].hash == Some(r.hash) && w.ledger.txs[i].network == r.network
  }

  // Nothing reaches the chain, or is charged by it, but the bytes of one journaled transaction
  // that was signed before it was sent.
  lemma OnlyJournaledBytesAreSent(g: Gateway, events: seq<Event>, r: Reference)
    requires Inv(g)
    ensures var w := Run(g, events).world;
      r in w.broadcast || r in w.mined ==>
        exists i :: IsRowOf(w, i, r) && w.ledger.txs[i].state in {Signed, Settled} && forall j :: IsRowOf(w, j, r) ==> j == i
  {
    hide LI.ApprovalsOk, LI.UploadsOk, OriginsOrdered, TasksOk, SessionsOk, CompletesOk, RowOk;
    RunKeeps(g, events);
    var w := Run(g, events).world;
    if r in w.broadcast || r in w.mined {
      assert Journaled(w, r);
      var i :| 0 <= i < |w.ledger.txs| && w.ledger.txs[i].hash == Some(r.hash) && w.ledger.txs[i].network == r.network;
      assert IsRowOf(w, i, r);
      assert LI.RowShape(w.ledger.txs[i]);
      forall j | IsRowOf(w, j, r) ensures j == i
      {
        LI.DistinctRows(w.ledger.txs, i, j);
      }
    }
  }

  // -- No second payment --

  // Two transactions of one upload belong to the same run of `pay`, at different calls.
  lemma {:induction false} OneRunPaysOnce(g: Gateway, events: seq<Event>, i: nat, j: nat)
    requires Inv(g)
    requires i < j < |Run(g, events).world.ledger.txs| == |Run(g, events).world.origins|
    requires Run(g, events).world.ledger.txs[i].upload == Run(g, events).world.ledger.txs[j].upload
    ensures var w := Run(g, events).world;
      w.origins[i].run == w.origins[j].run && w.origins[i].step < w.origins[j].step
  {
    RunKeeps(g, events);
  }

  // Once an upload has a transaction, no later request for it is admitted again.
  lemma {:induction false} NoSecondRun(g: Gateway, events: seq<Event>, e: Event)
    requires Inv(g)
    requires e.UploadRequest? && HasTxOf(g.world.ledger.txs, UploadId(e.quote, e.sha256, e.mode))
    ensures !(Admission(Run(g, events), e).Done? && Admission(Run(g, events), e).value)
    ensures var h := Run(g, events); Apply(h, e).running == h.running && Apply(h, e).world.ledger.txs == h.world.ledger.txs
  {
    hide Admit;
    var id := UploadId(e.quote, e.sha256, e.mode);
    var h := Run(g, events);
    assert HasTxOf(h.world.ledger.txs, id) && LI.TxsOk(h.world.ledger) by {
      RunForward(g, events);
      TxOfPersists(g.world.ledger, h.world.ledger, id);
    }
    hide Inv, HasTxOf, LI.TxsOk;
    AdmitMeansUnpaid(h.world.ledger, h.now, id, e.quote, e.sha256, e.size, e.mode, e.leaseKey);
    AdmittedRow(h.world.ledger, h.now, id, e.quote, e.sha256, e.size, e.mode, e.leaseKey);
  }

  lemma TxOfPersists(l: Ledger, m: Ledger, id: UploadId)
    requires LI.Evolves(l, m) && HasTxOf(l.txs, id)
    ensures HasTxOf(m.txs, id)
  {
    var i :| 0 <= i < |l.txs| && l.txs[i].upload == id;
    assert LI.RowEvolves(l.txs[i], m.txs[i]);
    assert m.txs[i].upload == id;
  }

  lemma AdmitMeansUnpaid(l: Ledger, now: int, id: UploadId, quote: string, sha256: string, size: nat, mode: string, key: string)
    requires LI.TxsOk(l)
    ensures var o := Admit(l, now, id, quote, sha256, size, mode, key); o.Done? && o.value ==> !HasTxOf(l.txs, id)
  {
    LI.NoTxWithoutUpload(l, id);
  }

  // -- The storage budget of one `pay` --

  lemma CapFits(a: PaymentApproval)
    ensures a.StorageCap() < U128_LIMIT && a.GasCap() < U128_LIMIT
  {
  }

  // After the check under the signer lock, no call of that `pay` is refused for storage.
  lemma {:induction false} StorageNeverRunsOut(g: Gateway, events: seq<Event>, id: UploadId, tx: string, nonce: nat, gasUpper: nat)
    requires Inv(g)
    requires AtCall(Run(g, events), id) && Run(g, events).running[id].phase.stage.Idle?
    ensures var h := Run(g, events);
      var r := NextReservation(h, id, tx, nonce, gasUpper);
      && id.approval in h.world.ledger.approvals
      && var row := h.world.ledger.approvals[id.approval];
         && row.reservedStorage + r.storageUpper <= row.definition.StorageCap() < U128_LIMIT
         && Reserve(h.world.ledger, h.now, r) != Failed(StorageCapExceeded)
  {
    hide Inv, LI.Inv, WorldOk;
    RunKeeps(g, events);
    var h := Run(g, events);
    var p := h.running[id].phase;
    SigningTask(h, id);
    CapFits(h.world.ledger.approvals[id.approval].definition);
    assert p.calls[p.next..] == [p.calls[p.next]] + p.calls[p.next + 1..];
    SumCons(p.calls[p.next], p.calls[p.next + 1..], UpperOf());
  }

  // -- Receipts --

  // A stored result is exactly what the chain charged for the upload's transactions, all settled.
  lemma {:induction false} ReceiptIsWhatWasCharged(g: Gateway, events: seq<Event>, u: UploadId)
    requires Inv(g)
    requires var l := Run(g, events).world.ledger; u in l.uploads && l.uploads[u].state == Complete
    ensures var w := Run(g, events).world;
      && w.ledger.uploads[u].result == Some(Receipt(Sum(w.ledger.txs, ChainStorageOf(w, u)), Sum(w.ledger.txs, ChainGasOf(w, u))))
      && (forall i :: 0 <= i < |w.ledger.txs| && w.ledger.txs[i].upload == u ==> w.ledger.txs[i].state == Settled)
  {
    hide LI.ApprovalsOk, LI.UploadsOk, LI.RowsIndependent, OriginsOrdered, TasksOk, SessionsOk, Journaled;
    RunKeeps(g, events);
    var w := Run(g, events).world;
    assert CompleteOk(w, u);
    forall i | 0 <= i < |w.ledger.txs|
      ensures SpentStorage(u)(w.ledger.txs[i]) == ChainStorageOf(w, u)(w.ledger.txs[i])
      ensures SpentGas(u)(w.ledger.txs[i]) == ChainGasOf(w, u)(w.ledger.txs[i])
    {
      assert RowOk(w, i) && LI.RowShape(w.ledger.txs[i]);
    }
    SumEqual(w.ledger.txs, SpentStorage(u), ChainStorageOf(w, u));
    SumEqual(w.ledger.txs, SpentGas(u), ChainGasOf(w, u));
  }

  function ChainStorageOf(w: World, u: UploadId): TxRow -> nat {
    (t: TxRow) => if t.upload == u && t.hash.Some? && RefOf(t) in w.mined then w.mined[RefOf(t)].storage else 0
  }

  function ChainGasOf(w: World, u: UploadId): TxRow -> nat {
    (t: TxRow) => if t.upload == u && t.hash.Some? && RefOf(t) in w.mined then w.mined[RefOf(t)].gas else 0
  }

  // When `pay` has made its last call, every quote hash it answers for is proved by the hash of a
  // settled, successful transaction of this upload and run that carried a payment of that quote.
  lemma {:induction false} ProofsPointAtPayments(g: Gateway, events: seq<Event>, id: UploadId, quote: string)
    requires Inv(g)
    requires var h := Run(g, events); id in h.running && h.running[id].phase.Signing?
    requires var p := Run(g, events).running[id].phase; p.next == |p.calls|
    ensures var h := Run(g, events);
      var p := h.running[id].phase;
      && |p.hashes| == |p.calls|
      && (quote in ProofMap(p.calls, p.hashes) <==> exists k :: 0 <= k < |p.calls| && PaidBy(p.calls[k], quote))
      && (quote in ProofMap(p.calls, p.hashes) ==>
            exists i, k :: 0 <= k < |p.calls| && PaidBy(p.calls[k], quote)
              && PaidRow(h.world, i, id, Origin(h.running[id].run, k, p.calls[k]), ProofMap(p.calls, p.hashes)[quote]))
  {
    RunKeeps(g, events);
    var h := Run(g, events);
    var p, run := h.running[id].phase, h.running[id].run;
    SigningTask(h, id);
    ProofMapExact(p.calls, p.hashes, quote);
    if quote in ProofMap(p.calls, p.hashes) {
      var k := LastPaying(p.calls, quote);
      assert CallPaid(h.world, id, Origin(run, k, p.calls[k]), p.hashes[k]);
      var i :| PaidRow(h.world, i, id, Origin(run, k, p.calls[k]), p.hashes[k]);
    }
  }

  lemma {:induction false} LastPaying(calls: seq<Call>, quote: string) returns (k: nat)
    requires exists j :: 0 <= j < |calls| && PaidBy(calls[j], quote)
    ensures LastPaidBy(calls, k, quote)
  {
    var last := |calls| - 1;
    if PaidBy(calls[last], quote) {
      k := last;
    } else {
      var j :| 0 <= j < |calls| && PaidBy(calls[j], quote);
      assert PaidBy(calls[..last][j], quote);
      k := LastPaying(calls[..last], quote);
    }
  }

  // -- Stored results are final --

  lemma CompleteSurvivesRestart(l: Ledger, network: string, u: UploadId)
    requires u in l.uploads && l.uploads[u].state == Complete
    ensures var m := Initialize(l, network); u in m.uploads && m.uploads[u] == l.uploads[u]
  {
    hide HasTxOf, AwaitsRecovery;
  }

  // What a task may still be when its upload is complete: gone, or a resumed one whose completion
  // write committed and was not heard of, with its recovery write ahead.
  lemma {:induction false} CompleteTask(g: Gateway, u: UploadId)
    requires Inv(g)
    requires u in g.world.ledger.uploads && g.world.ledger.uploads[u].state == Complete
    ensures u in g.running ==> g.running[u].phase.Finished? || g.running[u].phase == Failing(NeedsRecovery, true)
    ensures u !in g.resumes
  {
    hide LI.Inv, OriginsOrdered, RowOk, Journaled, CompletesOk, SigningOk, Sealed;
    if u in g.running {
      assert TaskOk(g.world, u, g.running[u]);
    }
    assert u in g.resumes ==> SessionOk(g.world, u, g.resumes[u]);
  }

  // Only admissions, reservations, final states and restarts write upload rows.
  lemma {:induction false} UploadWriters(g: Gateway, e: Event)
    requires !e.UploadRequest? && !e.ReserveStep? && !e.FinishStep? && !e.LoseCompletion? && !e.Restart?
    ensures Apply(g, e).world.ledger.uploads == g.world.ledger.uploads
  {
    hide CheckStorage, FinalState, HoldsLease, HasTxFor, HasTxOf, StorageUpper, ValidateExecution, Uncertain, AwaitsRecovery,
         FindById, FindByHash, CheckedReservation, RequireOpen, HasStorageIntent, SettledStorage, ChainAllows, Consistent, Calls,
         Upper, Live, PaymentApproval.Validate, PaymentApproval.Permits;
  }

  // The recovery write of a task at work on the upload.
  predicate Overwrites(g: Gateway, e: Event, u: UploadId) {
    e == FinishStep(u, true) && u in g.running && g.running[u].phase.Failing?
  }

  ghost predicate SameRow(l: Ledger, m: Ledger, u: UploadId) {
    u in l.uploads && u in m.uploads && m.uploads[u] == l.uploads[u]
  }

  lemma {:induction false} CompleteUntouched(g: Gateway, e: Event, u: UploadId)
    requires e.ReserveStep? || e.FinishStep? || e.LoseCompletion?
    requires u in g.world.ledger.uploads && !Overwrites(g, e, u)
    requires u in g.running ==> g.running[u].phase.Finished? || g.running[u].phase.Failing?
    ensures SameRow(g.world.ledger, Apply(g, e).world.ledger, u)
  {
    hide Reserve, Finish, HasStorageIntent;
    var l := g.world.ledger;
    match e {
      case ReserveStep(id, tx, nonce, gasUpper) =>
        if AtCall(g, id) {
          ReserveShape(l, g.now, NextReservation(g, id, tx, nonce, gasUpper));
        }
      case FinishStep(id, _) =>
        if id in g.running && id != u && g.running[id].phase.Succeeding? {
          FinishOthers(l, id, Complete, Some(g.running[id].phase.receipt), u);
        } else if id in g.running && id != u && g.running[id].phase.Failing? {
          FinishOthers(l, id, FinalState(g, id, g.running[id].phase), None, u);
        }
      case LoseCompletion(id, _) =>
        if id in g.running && id != u && g.running[id].phase.Succeeding? {
          FinishOthers(l, id, Complete, Some(g.running[id].phase.receipt), u);
        }
    }
  }

  // A step changes a completed upload's row if and only if it is the recovery write of a resumed
  // task that had already written the completion. It takes the result away.
  lemma {:induction false} CompleteStep(g: Gateway, e: Event, u: UploadId)
    requires Inv(g)
    requires u in g.world.ledger.uploads && g.world.ledger.uploads[u].state == Complete
    ensures SameRow(g.world.ledger, Apply(g, e).world.ledger, u) <==> !Overwrites(g, e, u)
    ensures Overwrites(g, e, u) ==> g.running[u].phase == Failing(NeedsRecovery, true) && Recovering(Apply(g, e).world.ledger, u)
  {
    hide Inv, Admit, Initialize;
    var l := g.world.ledger;
    CompleteTask(g, u);
    if Overwrites(g, e, u) {
      RecoveryWrite(g, u);
    } else {
      match e {
        case UploadRequest(q, sha, size, mode, key, _) =>
          AdmittedRow(l, g.now, UploadId(q, sha, mode), q, sha, size, mode, key);
        case Restart(network) => CompleteSurvivesRestart(l, network, u);
        case ReserveStep(_, _, _, _) => CompleteUntouched(g, e, u);
        case FinishStep(_, _) => CompleteUntouched(g, e, u);
        case LoseCompletion(_, _) => CompleteUntouched(g, e, u);
        case _ => UploadWriters(g, e);
      }
    }
  }

  // No result, and either nothing was ever paid or the approval is paused.
  ghost predicate Recovering(l: Ledger, u: UploadId) {
    && u in l.uploads && l.uploads[u].result.None?
    && if HasTxOf(l.txs, u) then
         && l.uploads[u].state == PaymentRecoveryRequired
         && (l.uploads[u].approval in l.approvals ==> l.approvals[l.uploads[u].approval].state == Paused)
       else l.uploads[u].state == Retryable
  }

  lemma {:induction false} RecoveryWrite(g: Gateway, u: UploadId)
    requires u in g.world.ledger.uploads && u in g.running && g.running[u].phase == Failing(NeedsRecovery, true)
    ensures Recovering(Apply(g, FinishStep(u, true)).world.ledger, u)
  {
    hide HasTxOf, HasStorageIntent;
    assert Apply(g, FinishStep(u, true)).world.ledger == Finish(g.world.ledger, u, PaymentRecoveryRequired, None);
  }

  lemma FinishOthers(l: Ledger, id: UploadId, requested: UploadState, result: Option<Receipt>, u: UploadId)
    requires u != id && u in l.uploads
    ensures SameRow(l, Finish(l, id, requested, result), u)
  {
  }

  // Complete, with no task at work on the upload.
  ghost predicate Concluded(g: Gateway, u: UploadId) {
    && u in g.world.ledger.uploads && g.world.ledger.uploads[u].state == Complete
    && (u in g.running ==> g.running[u].phase.Finished?)
  }

  // Nobody starts a task for a completed upload, nor takes one up again.
  lemma {:induction false} NoNewTask(g: Gateway, e: Event, u: UploadId)
    requires u in g.world.ledger.uploads && g.world.ledger.uploads[u].state == Complete
    requires u in g.running ==> g.running[u].phase.Finished?
    requires u !in g.resumes
    ensures u in Apply(g, e).running ==> Apply(g, e).running[u].phase.Finished?
  {
    hide Approve, Activate, CancelUnpaid, Admit, DoReserve, DoSign, DoSettle, Finish, Initialize, Begin, ChainAllows, Consistent, Live,
         FinalState, HasStorageIntent;
    var l := g.world.ledger;
    match e {
      case UploadRequest(q, sha, size, mode, key, _) =>
        AdmittedRow(l, g.now, UploadId(q, sha, mode), q, sha, size, mode, key);
      case PayBegin(id, prepared) => OnlyItsOwn(g, e, id, u);
      case ReserveStep(id, _, _, _) => OnlyItsOwn(g, e, id, u);
      case SignStep(id, _) => OnlyItsOwn(g, e, id, u);
      case SettleStep(id) => OnlyItsOwn(g, e, id, u);
      case _ =>
    }
  }

  lemma {:induction false} OnlyItsOwn(g: Gateway, e: Event, id: UploadId, u: UploadId)
    requires e.PayBegin? || e.ReserveStep? || e.SignStep? || e.SettleStep?
    requires e.id == id
    requires u in g.running ==> g.running[u].phase.Finished?
    ensures u in Apply(g, e).running ==> Apply(g, e).running[u].phase.Finished?
  {
    hide Reserve, RecordSigned, Settle, CheckStorage, StorageUpper, Calls, Consistent, SettledStorage, NewTx, Upper;
  }

  lemma {:induction false} ConcludedStep(g: Gateway, e: Event, u: UploadId)
    requires Inv(g) && Concluded(g, u)
    ensures Concluded(Apply(g, e), u) && SameRow(g.world.ledger, Apply(g, e).world.ledger, u)
  {
    hide Inv, Apply;
    CompleteTask(g, u);
    CompleteStep(g, e, u);
    NoNewTask(g, e, u);
  }

  // A completed upload on which no task is at work keeps its result for ever: identical retries
  // read the same.
  lemma {:induction false} ResultIsFinal(g: Gateway, events: seq<Event>, u: UploadId)
    requires Inv(g) && Concluded(g, u)
    ensures Concluded(Run(g, events), u) && SameRow(g.world.ledger, Run(g, events).world.ledger, u)
  {
    hide Inv, Apply;
    if |events| > 0 {
      var front := events[..|events| - 1];
      ResultIsFinal(g, front, u);
      RunKeeps(g, front);
      ConcludedStep(Run(g, front), events[|events| - 1], u);
    }
  }

  // So a result a task has answered with, resumed or not, is final from the write on.
  lemma {:induction false} AnsweredResultIsFinal(g: Gateway, u: UploadId, events: seq<Event>)
    requires Inv(g) && u in g.running && g.running[u].phase.Succeeding?
    ensures var l := Run(Apply(g, FinishStep(u, true)), events).world.ledger;
      u in l.uploads && l.uploads[u].state == Complete && l.uploads[u].result == Some(g.running[u].phase.receipt)
  {
    var h := Apply(g, FinishStep(u, true));
    hide Run;
    CompletionWrite(g, u);
    StepKeeps(g, FinishStep(u, true));
    hide Inv, Apply;
    ResultIsFinal(h, events, u);
  }

  lemma {:induction false} CompletionWrite(g: Gateway, u: UploadId)
    requires Inv(g) && u in g.running && g.running[u].phase.Succeeding?
    ensures var h := Apply(g, FinishStep(u, true));
      Concluded(h, u) && h.world.ledger.uploads[u].result == Some(g.running[u].phase.receipt)
  {
    hide Inv, Written;
    FinishWrites(g, u);
  }

  // And whatever is at work, a result stands until a step overwrites it.
  lemma {:induction false} ResultStands(g: Gateway, events: seq<Event>, u: UploadId)
    requires Inv(g)
    requires u in g.world.ledger.uploads && g.world.ledger.uploads[u].state == Complete
    requires forall k :: 0 <= k < |events| ==> !Overwrites(Run(g, events[..k]), events[k], u)
    ensures SameRow(g.world.ledger, Run(g, events).world.ledger, u)
  {
    hide Inv, Apply, Overwrites;
    if |events| > 0 {
      var front, last := events[..|events| - 1], events[|events| - 1];
      forall k | 0 <= k < |front| ensures !Overwrites(Run(g, front[..k]), front[k], u) {
        assert front[..k] == events[..k];
      }
      ResultStands(g, front, u);
      RunKeeps(g, front);
      assert events[..|events| - 1] == front;
      CompleteStep(Run(g, front), last, u);
    }
  }

  // -- Fencing --

  lemma {:induction false} SupersededStep(g: Gateway, e: Event, a: string, job: string, owner: string, generation: nat)
    requires Inv(g)
    requires LI.Superseded(g.world.ledger, g.now, a, job, owner, generation)
    ensures LI.Superseded(Apply(g, e).world.ledger, Apply(g, e).now, a, job, owner, generation)
  {
    var g' := Apply(g, e);
    hide Inv;
    if !e.ActivateRequest? {
      LeaseWriters(g, e);
      StepForward(g, e);
    }
  }

  // Only an activation writes a lease.
  lemma {:induction false} LeaseWriters(g: Gateway, e: Event)
    requires !e.ActivateRequest?
    ensures Apply(g, e).world.ledger.leases == g.world.ledger.leases
  {
    hide Approve, CancelUnpaid, Admit, DoReserve, DoSign, DoSettle, Finish, Initialize, CheckStorage, StorageUpper, Calls,
         Consistent, ChainAllows, Live, FinalState, HasStorageIntent;
    var l := g.world.ledger;
    match e {
      case ApproveRequest(a) => RequestsKeepLeases(l, g.now, a, "", "");
      case CancelRequest(q, key) => RequestsKeepLeases(l, g.now, PaymentApproval("", ContentDigest("", []), "", 0, "", "", []), q, key);
      case UploadRequest(q, sha, size, mode, key, _) => AdmitKeepsLeases(l, g.now, UploadId(q, sha, mode), q, sha, size, mode, key);
      case ReserveStep(_, _, _, _) => SigningLeases(g, e);
      case SignStep(_, _) => SigningLeases(g, e);
      case SettleStep(_) => SigningLeases(g, e);
      case FinishStep(id, _) =>
        if id in g.running && g.running[id].phase.Succeeding? {
          EndsKeepLeases(l, id, Complete, Some(g.running[id].phase.receipt), "");
        } else if id in g.running && g.running[id].phase.Failing? {
          EndsKeepLeases(l, id, FinalState(g, id, g.running[id].phase), None, "");
        }
      case LoseCompletion(id, _) =>
        if id in g.running && g.running[id].phase.Succeeding? {
          EndsKeepLeases(l, id, Complete, Some(g.running[id].phase.receipt), "");
        }
      case Restart(network) => EndsKeepLeases(l, UploadId("", "", ""), Complete, None, network);
      case _ =>
    }
  }

  lemma SigningLeases(g: Gateway, e: Event)
    requires e.ReserveStep? || e.SignStep? || e.SettleStep?
    ensures Apply(g, e).world.ledger.leases == g.world.ledger.leases
  {
    hide Reserve, RecordSigned, Settle, SettledStorage;
    var l := g.world.ledger;
    match e {
      case ReserveStep(id, tx, nonce, gasUpper) =>
        if AtCall(g, id) { ReserveShape(l, g.now, NextReservation(g, id, tx, nonce, gasUpper)); }
      case SignStep(id, hash) =>
        if AtCall(g, id) && g.running[id].phase.stage.Intended? && g.running[id].phase.stage.i < |l.txs| {
          SigningKeepsLeases(l, g.now, l.txs[g.running[id].phase.stage.i].id, hash, 0, 0);
        }
      case SettleStep(id) =>
        if AtCall(g, id) && g.running[id].phase.stage.Sent? && HasHash(g, g.running[id].phase.stage.i)
           && RefOf(l.txs[g.running[id].phase.stage.i]) in g.world.mined
        {
          var p := g.running[id].phase;
          var m := g.world.mined[RefOf(l.txs[p.stage.i])];
          SigningKeepsLeases(l, g.now, "", l.txs[p.stage.i].hash.value, SettledStorage(p.calls[p.next], m), m.gas);
        }
    }
  }

  lemma RequestsKeepLeases(l: Ledger, now: int, a: PaymentApproval, quote: string, key: string)
    ensures Approve(l, now, a).Tables(l).leases == l.leases
    ensures CancelUnpaid(l, now, quote, key).Tables(l).leases == l.leases
  {
    hide PaymentApproval.Validate, HoldsLease, HasTxFor;
  }

  lemma AdmitKeepsLeases(l: Ledger, now: int, id: UploadId, quote: string, sha256: string, size: nat, mode: string, key: string)
    ensures Admit(l, now, id, quote, sha256, size, mode, key).Tables(l).leases == l.leases
  {
    hide PaymentApproval.Validate, PaymentApproval.Permits, HoldsLease, HasTxOf, RequireOpen;
  }

  lemma SigningKeepsLeases(l: Ledger, now: int, id: string, hash: string, storage: nat, gas: nat)
    ensures RecordSigned(l, now, id, hash).Tables(l).leases == l.leases
    ensures Settle(l, hash, storage, gas).Tables(l).leases == l.leases
  {
    hide ValidateExecution, FindById, FindByHash;
  }

  lemma EndsKeepLeases(l: Ledger, id: UploadId, requested: UploadState, result: Option<Receipt>, network: string)
    ensures Finish(l, id, requested, result).leases == l.leases
    ensures Initialize(l, network).leases == l.leases
  {
    hide HasTxOf, MarkRecovery, MarkRetryable, PauseApprovals;
  }

  // A superseded or expired key stays so in every later state.
  lemma {:induction false} SupersededForever(g: Gateway, events: seq<Event>, a: string, job: string, owner: string, generation: nat)
    requires Inv(g)
    requires LI.Superseded(g.world.ledger, g.now, a, job, owner, generation)
    ensures LI.Superseded(Run(g, events).world.ledger, Run(g, events).now, a, job, owner, generation)
  {
    hide Inv, Apply, LI.Superseded;
    if |events| > 0 {
      var front := events[..|events| - 1];
      SupersededForever(g, front, a, job, owner, generation);
      RunKeeps(g, front);
      SupersededStep(Run(g, front), events[|events| - 1], a, job, owner, generation);
    }
  }

  // A worker whose generation was superseded, or whose lease ran out, never pays again: in every
  // later state nothing is admitted, reserved, signed or cancelled under its key.
  lemma {:induction false} SupersededNeverPays(g: Gateway, events: seq<Event>, a: string, job: string, owner: string, generation: nat, e: Event)
    requires Inv(g)
    requires LI.Superseded(g.world.ledger, g.now, a, job, owner, generation)
    ensures OutOf(Run(g, events), a, LeaseKey(job, owner, generation), e)
  {
    hide Inv, LI.Superseded, OutOf;
    SupersededForever(g, events, a, job, owner, generation);
    RunKeeps(g, events);
    NothingUnder(Run(g, events), a, job, owner, generation, e);
  }

  predicate TaskUnder(h: Gateway, id: UploadId, key: string) {
    id in h.running && h.running[id].leaseKey == key
  }

  lemma {:induction false} NothingUnder(h: Gateway, a: string, job: string, owner: string, generation: nat, e: Event)
    requires Inv(h)
    requires LI.Superseded(h.world.ledger, h.now, a, job, owner, generation)
    ensures OutOf(h, a, LeaseKey(job, owner, generation), e)
  {
    hide Inv, LI.Superseded, OutOf;
    LI.SupersededHoldsNothing(h.world.ledger, h.now, a, job, owner, generation);
    NothingWithoutLease(h, a, LeaseKey(job, owner, generation), e);
  }

  // The event writes nothing under this approval with this key.
  ghost predicate OutOf(h: Gateway, a: string, key: string, e: Event) {
    && (e.UploadRequest? && e.quote == a && e.leaseKey == key ==> Apply(h, e) == h)
    && (e.CancelRequest? && e.quote == a && e.key == key ==> Apply(h, e) == h)
    && (e.ReserveStep? && e.id.approval == a && TaskUnder(h, e.id, key) ==> Apply(h, e).world == h.world)
    && (e.SignStep? && e.id.approval == a && TaskUnder(h, e.id, key) ==> Apply(h, e).world == h.world)
  }

  lemma {:induction false} NothingWithoutLease(h: Gateway, a: string, key: string, e: Event)
    requires Inv(h)
    requires !HoldsLease(h.world.ledger, h.now, a, key)
    ensures OutOf(h, a, key, e)
  {
    hide Inv, LI.Inv;
    if (e.ReserveStep? || e.SignStep?) && e.id.approval == a && TaskUnder(h, e.id, key) && h.running[e.id].phase.Signing? {
      SigningTask(h, e.id);
      assert !ValidateExecution(h.world.ledger, h.now, e.id);
      if e.SignStep? && AtCall(h, e.id) && h.running[e.id].phase.stage.Intended? {
        StageRow(h.world, e.id, h.running[e.id].run, h.running[e.id].phase);
        Parts(h);
        var i := h.running[e.id].phase.stage.i;
        LedgerRow(h.world.ledger, i);
        LI.FoundById(h.world.ledger.txs, i);
      }
    }
  }

  // -- Revocation --

  // A confirmed cancellation proves that no transaction exists under the approval, and none ever
  // will, through any later requests, lost responses and restarts.
  lemma {:induction false} CancelledNeverPays(g: Gateway, quote: string, key: string, events: seq<Event>)
    requires Inv(g)
    requires var o := CancelUnpaid(g.world.ledger, g.now, quote, key); o.Done? && o.value
    ensures var l := Run(Apply(g, CancelRequest(quote, key)), events).world.ledger;
      quote in l.approvals && l.approvals[quote].state == CancelledUnpaid && !HasTxFor(l.txs, quote)
  {
    var g' := Apply(g, CancelRequest(quote, key));
    OutsideStep(g, CancelRequest(quote, key));
    CancelledForever(g', quote, events);
  }

  lemma {:induction false} CancelledForever(g: Gateway, quote: string, events: seq<Event>)
    requires Inv(g)
    requires quote in g.world.ledger.approvals && g.world.ledger.approvals[quote].state == CancelledUnpaid
    ensures var l := Run(g, events).world.ledger;
      quote in l.approvals && l.approvals[quote].state == CancelledUnpaid && !HasTxFor(l.txs, quote)
  {
    hide Inv, LI.ApprovalOk;
    RunForward(g, events);
    CancelledUnpaidRow(Run(g, events), quote);
  }

  lemma CancelledUnpaidRow(g: Gateway, quote: string)
    requires Inv(g)
    ensures quote in g.world.ledger.approvals && g.world.ledger.approvals[quote].state == CancelledUnpaid
      ==> !HasTxFor(g.world.ledger.txs, quote)
  {
    hide WorldOk, TasksOk, SessionsOk, CompletesOk, LI.TxsOk, LI.UploadsOk;
    if quote in g.world.ledger.approvals {
      assert LI.ApprovalOk(g.world.ledger, quote);
    }
  }

  // -- One ordered signing stream --

  // While a transaction of a network is unresolved, that network's writes are disabled and no
  // other transaction of the network is reserved.
  lemma UnresolvedBlocks(g: Gateway, events: seq<Event>, i: nat)
    requires Inv(g)
    requires i < |g.world.ledger.txs| && i < |Run(g, events).world.ledger.txs|
    requires Run(g, events).world.ledger.txs[i].Unresolved()
    requires Run(g, events).world.ledger.network == g.world.ledger.txs[i].network
    ensures var h := Run(g, events);
      && !SigningEnabled(h.world.ledger)
      && (forall r :: Reserve(h.world.ledger, h.now, r).Failed?)
  {
    hide Inv, LI.Evolves, HoldsLease, CheckedReservation, RequireOpen, PaymentApproval.Validate;
    RunForward(g, events);
    var l := Run(g, events).world.ledger;
    RowNetwork(g.world.ledger, l, i);
    assert Uncertain(l.txs, l.network);
  }

  lemma RowNetwork(l: Ledger, m: Ledger, i: nat)
    requires LI.Evolves(l, m) && i < |l.txs|
    ensures i < |m.txs| && m.txs[i].network == l.txs[i].network && (l.txs[i].hash.Some? ==> m.txs[i].hash == l.txs[i].hash)
    ensures m.txs[i].storageReserved == l.txs[i].storageReserved && m.txs[i].gasReserved == l.txs[i].gasReserved
  {
    assert LI.RowEvolves(l.txs[i], m.txs[i]);
  }

  // A receipt above its reservation is never settled, so it stops that network's signing for good.
  lemma {:induction false} OverchargeStopsSigning(g: Gateway, events: seq<Event>, i: nat)
    requires Inv(g)
    requires i < |g.world.ledger.txs| && g.world.ledger.txs[i].hash.Some? && RefOf(g.world.ledger.txs[i]) in g.world.mined
    requires !WithinBounds(g.world, i)
    ensures var h := Run(g, events);
      && i < |h.world.ledger.txs| && h.world.ledger.txs[i].Unresolved()
      && (h.world.ledger.network == g.world.ledger.txs[i].network ==>
            !SigningEnabled(h.world.ledger) && forall r :: Reserve(h.world.ledger, h.now, r).Failed?)
  {
    hide Inv, LI.Evolves;
    RunForward(g, events);
    var w, v := g.world, Run(g, events).world;
    RowNetwork(w.ledger, v.ledger, i);
    assert v.mined[RefOf(v.ledger.txs[i])] == w.mined[RefOf(w.ledger.txs[i])];
    SettledWithinBounds(Run(g, events), i);
    if v.ledger.network == w.ledger.txs[i].network {
      UnresolvedBlocks(g, events, i);
    }
  }

  lemma SettledWithinBounds(g: Gateway, i: nat)
    requires Inv(g)
    requires i < |g.world.ledger.txs|
    ensures g.world.ledger.txs[i].state == Settled ==> WithinBounds(g.world, i)
  {
    hide LI.ApprovalsOk, LI.UploadsOk, LI.RowsIndependent, TasksOk, SessionsOk, CompletesOk;
    assert LI.RowShape(g.world.ledger.txs[i]) && RowOk(g.world, i);
  }
}
