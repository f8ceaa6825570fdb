// How uploads end: what a failure, a restart and a refused budget leave behind, and when an upload may
// be asked for or taken up again.
module GatewayEnds {
  import opened Outcomes
  import opened Amounts
  import opened Contract
  import opened Ledger
  import opened Signer
  import opened Gateway
  import opened GatewayInvariant
  import opened GatewaySteps
  import opened GatewaySigning
  import GT = GatewayTheorems
  import LI = LedgerInvariant
  import AL = ApprovalLife

  // -- Approval required --

  // Nothing that could move storage tokens was ever reserved for the upload.
  ghost predicate NothingReserved(l: Ledger, u: UploadId) {
    forall i :: 0 <= i < |l.txs| && l.txs[i].upload == u ==> l.txs[i].storageReserved == 0
  }

  ghost predicate AskedOk(g: Gateway) {
    forall u :: u in g.world.ledger.uploads && g.world.ledger.uploads[u].state == ApprovalRequired ==> NothingReserved(g.world.ledger, u)
  }

  lemma IntentReserves(l: Ledger, u: UploadId)
    ensures HasStorageIntent(l, u) <==> !NothingReserved(l, u)
  {
    forall i | 0 <= i < |l.txs| ensures Digits(l.txs[i].storageReserved) == "0" <==> l.txs[i].storageReserved == 0 {
      OnlyZeroIsWrittenZero(l.txs[i].storageReserved);
    }
  }

  // The state a failing task writes: a new approval is asked for exactly when the failure asks for it
  // and nothing is reserved, and never after a resume.
  lemma {:induction false} FailureIsClassified(g: Gateway, u: UploadId)
    requires u in g.running && g.running[u].phase.Failing? && u in g.world.ledger.uploads
    ensures var p, l := g.running[u].phase, g.world.ledger; var m := Apply(g, FinishStep(u, true)).world.ledger;
      && u in m.uploads && m.txs == l.txs
      && (m.uploads[u].state == Partial <==> p.failure.IsPartial?)
      && (m.uploads[u].state == ApprovalRequired <==> p.failure.NeedsApproval? && !p.afterResume && NothingReserved(l, u))
      && (m.uploads[u].state == PaymentRecoveryRequired <==> m.uploads[u].state !in {Partial, ApprovalRequired} && HasTxOf(l.txs, u))
      && (m.uploads[u].state == Retryable <==> m.uploads[u].state !in {Partial, ApprovalRequired} && !HasTxOf(l.txs, u))
  {
    hide HasTxOf, HasStorageIntent, NothingReserved;
    IntentReserves(g.world.ledger, u);
    assert Apply(g, FinishStep(u, true)).world.ledger == Finish(g.world.ledger, u, FinalState(g, u, g.running[u].phase), None);
  }

  lemma {:induction false} StateWriters(g: Gateway, e: Event, u: UploadId)
    requires Inv(g) && u in Apply(g, e).world.ledger.uploads && Apply(g, e).world.ledger.uploads[u].state == ApprovalRequired
    ensures (u in g.world.ledger.uploads && g.world.ledger.uploads[u].state == ApprovalRequired)
      || (e == FinishStep(u, true) && u in g.running && g.running[u].phase.Failing? && u in g.world.ledger.uploads)
  {
    hide Inv, Reserve, Finish, Admit, HasStorageIntent, FinalState, HasTxOf, Written, Initialize, NextReservation, Upper, NewTx;
    var l := g.world.ledger;
    match e {
      case UploadRequest(q, sha, size, mode, key, _) => AdmittedRow(l, g.now, UploadId(q, sha, mode), q, sha, size, mode, key);
      case ReserveStep(id, tx, nonce, gasUpper) =>
        if AtCall(g, id) { ReserveShape(l, g.now, NextReservation(g, id, tx, nonce, gasUpper)); }
      case FinishStep(id, _) => FinalRow(g, id, u);
      case LoseCompletion(id, _) => FinalRow(g, id, u);
      case Restart(network) => RestartRow(l, network, u);
      case _ => GT.UploadWriters(g, e);
    }
  }

  lemma RestartRow(l: Ledger, network: string, u: UploadId)
    ensures var m := Initialize(l, network);
      u in m.uploads && m.uploads[u].state == ApprovalRequired ==> u in l.uploads && l.uploads[u].state == ApprovalRequired
  {
    hide HasTxOf, AwaitsRecovery;
  }

  lemma FinalRow(g: Gateway, id: UploadId, u: UploadId)
    ensures id in g.running && (g.running[id].phase.Failing? || g.running[id].phase.Succeeding?) ==>
      var m := Written(g, id, g.running[id].phase);
      u in m.uploads && m.uploads[u].state == ApprovalRequired ==>
        u in g.world.ledger.uploads && (g.world.ledger.uploads[u].state == ApprovalRequired || (u == id && g.running[id].phase.Failing?))
  {
    hide HasTxOf, HasStorageIntent;
  }

  // A new reservation is for an upload whose task is at work on it.
  lemma {:induction false} ReservesInFlight(g: Gateway, e: Event)
    requires Inv(g) && e.ReserveStep? && AtCall(g, e.id)
    ensures e.id in Apply(g, e).world.ledger.uploads && Apply(g, e).world.ledger.uploads[e.id].state != ApprovalRequired
  {
    hide Inv, Reserve, NextReservation;
    SigningTask(g, e.id);
    ReserveShape(g.world.ledger, g.now, NextReservation(g, e.id, e.tx, e.nonce, e.gasUpper));
  }

  lemma {:induction false} AskedStep(g: Gateway, e: Event)
    requires Inv(g) && AskedOk(g)
    ensures AskedOk(Apply(g, e))
  {
    hide Inv, Apply, Reserve, NextReservation;
    var l, m := g.world.ledger, Apply(g, e).world.ledger;
    AL.RowWriters(g, e);
    GT.LedgerStep(g, e);
    forall u | u in m.uploads && m.uploads[u].state == ApprovalRequired ensures NothingReserved(m, u) {
      StateWriters(g, e, u);
      if e == FinishStep(u, true) && u in g.running && g.running[u].phase.Failing? && u in l.uploads {
        FailureIsClassified(g, u);
      } else {
        StillNothing(g, e, u);
      }
    }
  }

  lemma {:induction false} StillNothing(g: Gateway, e: Event, u: UploadId)
    requires Inv(g) && NothingReserved(g.world.ledger, u) && LI.Evolves(g.world.ledger, Apply(g, e).world.ledger)
    requires u in Apply(g, e).world.ledger.uploads && Apply(g, e).world.ledger.uploads[u].state == ApprovalRequired
    ensures NothingReserved(Apply(g, e).world.ledger, u)
  {
    hide Inv, Apply, Reserve;
    var l, m := g.world.ledger, Apply(g, e).world.ledger;
    AL.RowWriters(g, e);
    if |m.txs| != |l.txs| {
      ReservesInFlight(g, e);
    }
    forall i | 0 <= i < |m.txs| && m.txs[i].upload == u ensures m.txs[i].storageReserved == 0 {
      if i < |l.txs| {
        assert LI.RowEvolves(l.txs[i], m.txs[i]);
      }
    }
  }

  // Over every run: an upload that asks for a new approval has never reserved any storage payment, so
  // a new quote for it cannot pay for it twice.
  lemma {:induction false} AskedAgainOnlyIfUnpaid(g: Gateway, events: seq<Event>)
    requires Inv(g) && AskedOk(g)
    ensures AskedOk(Run(g, events))
  {
    hide Inv, Apply, AskedOk;
    if |events| > 0 {
      AskedAgainOnlyIfUnpaid(g, events[..|events| - 1]);
      RunKeeps(g, events[..|events| - 1]);
      AskedStep(Run(g, events[..|events| - 1]), events[|events| - 1]);
    }
  }

  // A reservation that is refused asks for a new approval when the approval is cancelled or a cap does
  // not cover the call, with everything before that check in order; every other refusal leads to recovery.
  lemma {:induction false} ReserveRefusals(l: Ledger, now: int, r: Reservation)
    requires Reserve(l, now, r).Failed?
    ensures ClassOf(Reserve(l, now, r).error) == NeedsApproval <==>
      && !l.guard && ValidateExecution(l, now, r.upload) && r.approval in l.approvals
      && var row := l.approvals[r.approval];
         && row.definition.Validate(now, l.network)
         && (row.state == CancelledUnpaid
             || (row.state == Open && (row.reservedStorage + r.storageUpper > row.definition.StorageCap()
                                       || row.reservedGas + r.gasUpper > row.definition.GasCap())))
    ensures ClassOf(Reserve(l, now, r).error) in {NeedsApproval, NeedsRecovery}
  {
    hide ValidateExecution, PaymentApproval.Validate, Uncertain, FindById;
    if r.approval in l.approvals {
      GT.CapFits(l.approvals[r.approval].definition);
    }
  }

  // The task turns to its final write with that class, and what the journal holds is as it was.
  lemma {:induction false} RefusedCall(g: Gateway, e: Event)
    requires e.ReserveStep? && AtCall(g, e.id) && g.running[e.id].phase.stage.Idle?
    requires Reserve(g.world.ledger, g.now, NextReservation(g, e.id, e.tx, e.nonce, e.gasUpper)).Failed?
    ensures var h := Apply(g, e);
      && h.world == g.world && e.id in h.running && h.lock != Some(e.id)
      && h.running[e.id].phase == Failing(ClassOf(Reserve(g.world.ledger, g.now, NextReservation(g, e.id, e.tx, e.nonce, e.gasUpper)).error), false)
  {
    hide Reserve, NextReservation;
  }

  // A budget that does not cover an upload is refused before anything is reserved: the upload asks for
  // a new approval, and neither the approval nor any row changes.
  lemma {:induction false} RefusedBeforePaying(g: Gateway, u: UploadId, prepared: Prepared)
    requires Inv(g) && u in g.running && g.running[u].phase.Preparation? && g.lock.None? && Consistent(prepared)
    requires StorageUpper(prepared).Some? && u.approval in g.world.ledger.approvals
    requires var row := g.world.ledger.approvals[u.approval];
      row.definition.Validate(g.now, g.world.ledger.network) && row.reservedStorage + StorageUpper(prepared).value > row.definition.StorageCap()
    ensures var h := Apply(Apply(g, PayBegin(u, prepared)), FinishStep(u, true));
      && u in h.world.ledger.uploads && h.world.ledger.uploads[u].state == ApprovalRequired
      && h.world.ledger.approvals == g.world.ledger.approvals && h.world.ledger.txs == g.world.ledger.txs
      && h.lock.None?
  {
    var l := g.world.ledger;
    var refused := CheckStorage(l, g.now, u.approval, StorageUpper(prepared).value);
    assert refused.Err? && refused.error in {AmountOverflow, StorageCapExceeded};
    hide Apply, CheckStorage, StorageUpper, Consistent, Calls;
    PreparingUnpaid(g, u);
    Refuses(g, u, prepared);
    RefusalWrites(Apply(g, PayBegin(u, prepared)), u);
  }

  lemma {:induction false} PreparingUnpaid(g: Gateway, u: UploadId)
    requires Inv(g) && u in g.running && g.running[u].phase.Preparation?
    ensures u in g.world.ledger.uploads && !HasTxOf(g.world.ledger.txs, u)
  {
    hide OriginsOrdered, RowOk, Journaled, SessionsOk, CompletesOk, LI.TxsOk, LI.ApprovalsOk, SigningOk, Sealed;
    assert TaskOk(g.world, u, g.running[u]) && LI.UploadOk(g.world.ledger, u);
  }

  lemma Refuses(g: Gateway, u: UploadId, prepared: Prepared)
    requires u in g.running && g.running[u].phase.Preparation? && g.lock.None? && Consistent(prepared) && StorageUpper(prepared).Some?
    ensures var r := CheckStorage(g.world.ledger, g.now, u.approval, StorageUpper(prepared).value);
      r.Err? && r.error in {AmountOverflow, StorageCapExceeded} ==>
        Apply(g, PayBegin(u, prepared)) == g.(running := g.running[u := g.running[u].(phase := Failing(NeedsApproval, false))])
  {
    hide CheckStorage, StorageUpper, Consistent, Calls;
  }

  lemma {:induction false} RefusalWrites(g: Gateway, u: UploadId)
    requires u in g.running && g.running[u].phase == Failing(NeedsApproval, false)
    requires u in g.world.ledger.uploads && !HasTxOf(g.world.ledger.txs, u)
    ensures var h := Apply(g, FinishStep(u, true));
      && u in h.world.ledger.uploads && h.world.ledger.uploads[u].state == ApprovalRequired
      && h.world.ledger.approvals == g.world.ledger.approvals && h.world.ledger.txs == g.world.ledger.txs && h.lock == g.lock
  {
    FailureIsClassified(g, u);
    assert NothingReserved(g.world.ledger, u);
    hide NothingReserved, HasTxOf, HasStorageIntent;
  }

  // -- Restarts --

  // After a restart nothing is in flight: what had a transaction is in recovery with its approval
  // paused, what had none may be tried again, and finished uploads are as they were.
  lemma {:induction false} RestartDecides(g: Gateway, network: string, u: UploadId)
    requires Inv(g) && u in g.world.ledger.uploads
    ensures var l, m := g.world.ledger, Apply(g, Restart(network)).world.ledger;
      && u in m.uploads && m.uploads[u].state !in {Preparing, Paying, Partial}
      && (if l.uploads[u].state !in {Preparing, Paying, Partial} then m.uploads[u] == l.uploads[u]
          else m.uploads[u].state == if HasTxOf(l.txs, u) then PaymentRecoveryRequired else Retryable)
      && (m.uploads[u].state == PaymentRecoveryRequired ==> u.approval in m.approvals && m.approvals[u.approval].state == Paused)
  {
    hide WorldOk, TasksOk, SessionsOk, CompletesOk, LI.TxsOk, LI.ApprovalsOk, HasTxOf, AwaitsRecovery;
    assert LI.UploadOk(g.world.ledger, u);
    var m := Apply(g, Restart(network)).world.ledger;
    if m.uploads[u].state == PaymentRecoveryRequired {
      assert g.world.ledger.uploads[u].approval == u.approval by { AL.OwnApproval(g.world, u); }
      Awaited(m.uploads, u);
    }
  }

  lemma Awaited(uploads: map<UploadId, UploadRow>, u: UploadId)
    requires u in uploads && uploads[u].state == PaymentRecoveryRequired
    ensures AwaitsRecovery(uploads, uploads[u].approval)
  {
  }

  ghost predicate CutOffUnpaid(l: Ledger, u: UploadId) {
    && u in l.uploads && l.uploads[u].state in {Preparing, Partial, Retryable}
    && l.uploads[u].sha256 == u.sha256 && !HasTxOf(l.txs, u)
  }

  // The request of a worker with a live lease on an approval that is open and permits it.
  ghost predicate Entitled(l: Ledger, now: int, e: Event)
    requires e.UploadRequest?
  {
    && e.quote in l.approvals && l.approvals[e.quote].state == Open
    && l.approvals[e.quote].definition.Validate(now, l.network) && l.approvals[e.quote].definition.Permits(e.sha256, e.size, e.mode)
    && HoldsLease(l, now, e.quote, e.leaseKey)
  }

  ghost predicate Started(h: Gateway, u: UploadId, key: string) {
    && u in h.running && h.running[u].phase.Preparation? && h.running[u].leaseKey == key
    && u in h.world.ledger.uploads && h.world.ledger.uploads[u].state == Preparing
  }

  // An upload that was cut off before it paid anything is admitted again under any live lease of its
  // open approval, whoever asks.
  lemma {:induction false} UnpaidIsRetried(g: Gateway, network: string, e: Event)
    requires Inv(g) && e.UploadRequest? && !e.dropped
    requires CutOffUnpaid(g.world.ledger, UploadId(e.quote, e.sha256, e.mode))
    requires Entitled(Initialize(g.world.ledger, network), g.now, e)
    ensures Started(Apply(Apply(g, Restart(network)), e), UploadId(e.quote, e.sha256, e.mode), e.leaseKey)
  {
    var u := UploadId(e.quote, e.sha256, e.mode);
    RestartDecides(g, network, u);
    assert g.world.ledger.uploads[u].approval == u.approval by { AL.OwnApproval(g.world, u); }
    hide Inv, HasTxOf, AwaitsRecovery, PaymentApproval.Validate, PaymentApproval.Permits, HoldsLease, Admit, Initialize;
    var r := Apply(g, Restart(network));
    Restarted(g, network);
    hide Apply;
    AdmitsRetryable(r.world.ledger, r.now, u, e.size, e.leaseKey);
    StartsTask(r, e);
  }

  lemma Restarted(g: Gateway, network: string)
    ensures var r := Apply(g, Restart(network));
      r.world.ledger == Initialize(g.world.ledger, network) && r.now == g.now && r.running == map[] && r.world.ledger.txs == g.world.ledger.txs && r.world.ledger.network == network
    ensures forall u :: u in g.world.ledger.uploads ==>
      var m := Apply(g, Restart(network)).world.ledger; u in m.uploads && m.uploads[u].(state := g.world.ledger.uploads[u].state) == g.world.ledger.uploads[u]
  {
    hide HasTxOf, AwaitsRecovery;
  }

  lemma AdmitsRetryable(l: Ledger, now: int, u: UploadId, size: nat, key: string)
    requires u in l.uploads && l.uploads[u].state == Retryable && l.uploads[u].approval == u.approval && l.uploads[u].sha256 == u.sha256
    requires !HasTxOf(l.txs, u) && u.approval in l.approvals && l.approvals[u.approval].state == Open
    requires l.approvals[u.approval].definition.Validate(now, l.network) && l.approvals[u.approval].definition.Permits(u.sha256, size, u.mode)
    requires HoldsLease(l, now, u.approval, key)
    ensures var o := Admit(l, now, u, u.approval, u.sha256, size, u.mode, key);
      o == Done(l.(uploads := l.uploads[u := l.uploads[u].(state := Preparing, leaseKey := key)]), true)
  {
    hide PaymentApproval.Validate, PaymentApproval.Permits, HoldsLease, HasTxOf;
  }

  lemma StartsTask(g: Gateway, e: Event)
    requires e.UploadRequest? && !e.dropped
    ensures var u, o := UploadId(e.quote, e.sha256, e.mode), Admission(g, e);
      u !in g.running && o.Done? && o.value ==>
        && u in Apply(g, e).running && Apply(g, e).running[u].phase.Preparation? && Apply(g, e).running[u].leaseKey == e.leaseKey
        && Apply(g, e).world.ledger == o.tables
  {
    hide Admit;
  }

  // -- Retained sessions --

  ghost predicate SessionsBounded(g: Gateway) {
    |g.resumes| <= 4 && forall u :: u in g.resumes ==> g.resumes[u].expires <= g.now + 3600
  }

  lemma LiveIsSmaller(resumes: map<UploadId, Session>, now: int)
    ensures |Live(resumes, now)| <= |resumes|
  {
    var live := Live(resumes, now);
    assert live.Keys <= resumes.Keys;
    SubsetSize(live.Keys, resumes.Keys);
    assert |live| == |live.Keys| && |resumes| == |resumes.Keys|;
  }

  lemma {:induction false} SubsetSize(a: set<UploadId>, b: set<UploadId>)
    requires a <= b
    ensures |a| <= |b|
  {
    if a != {} {
      var x :| x in a;
      SubsetSize(a - {x}, b - {x});
    }
  }

  lemma SessionWriters(g: Gateway, e: Event)
    ensures var h := Apply(g, e);
      && (e.StorePartial? || e.ResumeRequest? || g.now <= h.now)
      && (e.StorePartial? || e.ResumeRequest? || e.SweepResumes? || e.Restart? || h.resumes == g.resumes)
      && (e.Restart? ==> h.resumes == map[])
      && (e.SweepResumes? ==> h.resumes == Live(g.resumes, g.now))
  {
    hide Approve, Activate, CancelUnpaid, Admit, Reserve, RecordSigned, Settle, Finish, Initialize, CheckStorage, StorageUpper,
         SettledStorage, ChainAllows, Consistent, Calls, Upper, Live, HasStorageIntent, FinalState, DoStorePartial, DoResume;
  }

  lemma {:induction false} BoundedStep(g: Gateway, e: Event)
    requires SessionsBounded(g)
    ensures SessionsBounded(Apply(g, e))
  {
    hide Apply;
    SessionWriters(g, e);
    LiveIsSmaller(g.resumes, g.now);
    match e {
      case StorePartial(id) => PartialBounded(g, id);
      case ResumeRequest(id) => ResumeBounded(g, id);
      case _ =>
    }
  }

  lemma {:induction false} PartialBounded(g: Gateway, id: UploadId)
    requires SessionsBounded(g)
    ensures SessionsBounded(Apply(g, StorePartial(id)))
  {
    StorePartialIs(g, id);
    hide Apply;
    LiveIsSmaller(g.resumes, g.now);
    var kept := Live(g.resumes, g.now);
    if id in g.running && g.running[id].phase.Storing? && |kept| < 4 {
      var after := Apply(g, StorePartial(id)).resumes;
      assert after.Keys == kept.Keys + {id};
      assert |after| == |after.Keys| && |kept| == |kept.Keys|;
    }
  }

  lemma {:induction false} ResumeBounded(g: Gateway, id: UploadId)
    requires SessionsBounded(g)
    ensures SessionsBounded(Apply(g, ResumeRequest(id)))
  {
    if id !in g.running && id in g.resumes {
      var taken := map u | u in g.resumes && u != id :: g.resumes[u];
      assert taken.Keys <= g.resumes.Keys;
      SubsetSize(taken.Keys, g.resumes.Keys);
      assert |taken| == |taken.Keys| && |g.resumes| == |g.resumes.Keys|;
    }
  }

  // At most four uploads are retained for a resume, none for more than an hour, and a session that has
  // run out is dropped by the request that asks for it.
  lemma {:induction false} SessionsAreFew(g: Gateway, events: seq<Event>, u: UploadId)
    requires SessionsBounded(g)
    ensures var h := Run(g, events);
      && SessionsBounded(h)
      && (u !in h.running && u in h.resumes && h.resumes[u].expires <= h.now ==>
            u !in Apply(h, ResumeRequest(u)).running && u !in Apply(h, ResumeRequest(u)).resumes)
  {
    hide SessionsBounded;
    ResumeLate(Run(g, events), u);
    if |events| > 0 {
      hide Apply;
      SessionsAreFew(g, events[..|events| - 1], u);
      BoundedStep(Run(g, events[..|events| - 1]), events[|events| - 1]);
    }
  }

  lemma ResumeLate(h: Gateway, u: UploadId)
    ensures u !in h.running && u in h.resumes && h.resumes[u].expires <= h.now ==>
      u !in Apply(h, ResumeRequest(u)).running && u !in Apply(h, ResumeRequest(u)).resumes
  {
  }
}
