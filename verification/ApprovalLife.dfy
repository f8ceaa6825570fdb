// The life of an approval at the gateway: what it is when it is stored, and what becomes impossible
// once it is paused, cancelled or over, or while the restore guard is set.
module ApprovalLife {
  import opened Outcomes
  import opened Amounts
  import opened Contract
  import opened Ledger
  import opened Signer
  import opened Gateway
  import opened GatewayInvariant
  import opened GatewaySteps
  import opened GatewaySigning
  import GT = GatewayTheorems
  import LI = LedgerInvariant
  import Budget

  // -- Closed approvals --

  // Paused, cancelled or over.
  predicate Closed(g: Gateway, quote: string) {
    && quote in g.world.ledger.approvals
    && (g.world.ledger.approvals[quote].state != Open || g.world.ledger.approvals[quote].definition.expiresAt <= g.now)
  }

  lemma ClosedStays(g: Gateway, h: Gateway, quote: string)
    requires GT.Forward(g, h) && Closed(g, quote)
    ensures Closed(h, quote)
  {
    hide LI.TxsEvolve, LI.LeasesEvolve, LI.UploadsEvolve;
  }

  lemma ClosedRefuses(l: Ledger, now: int, quote: string)
    requires quote in l.approvals && (l.approvals[quote].state != Open || l.approvals[quote].definition.expiresAt <= now)
    ensures forall id, sha256, size, mode, key :: Admit(l, now, id, quote, sha256, size, mode, key).Failed?
    ensures forall r: Reservation :: r.approval == quote ==> Reserve(l, now, r).Failed?
  {
  }

  // From g to h, `quote` got no transaction and no new upload.
  ghost predicate NothingNew(g: Gateway, h: Gateway, quote: string) {
    && |g.world.ledger.txs| <= |h.world.ledger.txs|
    && (forall i :: |g.world.ledger.txs| <= i < |h.world.ledger.txs| ==> h.world.ledger.txs[i].approval != quote)
    && (forall u :: u in h.running && u.approval == quote && h.running[u].phase.Preparation? ==>
          u in g.running && g.running[u] == h.running[u])
  }

  // Tasks in preparation only come from admitted requests.
  lemma PreparationWriters(g: Gateway, e: Event, u: UploadId)
    requires u in Apply(g, e).running && Apply(g, e).running[u].phase.Preparation?
    ensures (u in g.running && g.running[u] == Apply(g, e).running[u])
      || (e.UploadRequest? && u == UploadId(e.quote, e.sha256, e.mode) && Admission(g, e).Done? && Admission(g, e).value)
  {
    hide Approve, Activate, CancelUnpaid, Admit, Reserve, RecordSigned, Settle, Finish, Initialize, CheckStorage, StorageUpper,
         SettledStorage, ChainAllows, Consistent, Calls, Upper, Live, HasStorageIntent, FinalState;
  }

  // A reservation is the only writer of a new row, and it is charged to its upload's approval.
  lemma {:induction false} RowWriters(g: Gateway, e: Event)
    requires Inv(g)
    ensures var l, m := g.world.ledger, Apply(g, e).world.ledger;
      || |m.txs| == |l.txs|
      || (e.ReserveStep? && AtCall(g, e.id) && m.txs == l.txs + [NewTx(l, NextReservation(g, e.id, e.tx, e.nonce, e.gasUpper))]
          && Reserve(l, g.now, NextReservation(g, e.id, e.tx, e.nonce, e.gasUpper)).Done?)
  {
    hide Inv, Reserve, RecordSigned, Settle, LI.Inv, LI.RowsIndependent, WorldOk, NewTx, NextReservation, SettledStorage;
    var l := g.world.ledger;
    match e {
      case ReserveStep(id, tx, nonce, gasUpper) =>
        if AtCall(g, id) { ReserveShape(l, g.now, NextReservation(g, id, tx, nonce, gasUpper)); }
      case SignStep(id, hash) =>
        if AtCall(g, id) && g.running[id].phase.stage.Intended? && g.running[id].phase.stage.i < |l.txs| {
          SameCount(l, g.now, l.txs[g.running[id].phase.stage.i].id, hash, 0, 0);
        }
      case SettleStep(id) =>
        if AtCall(g, id) && g.running[id].phase.stage.Sent? && HasHash(g, g.running[id].phase.stage.i)
           && RefOf(l.txs[g.running[id].phase.stage.i]) in g.world.mined
        {
          var p := g.running[id].phase;
          var m := g.world.mined[RefOf(l.txs[p.stage.i])];
          SameCount(l, g.now, "", l.txs[p.stage.i].hash.value, SettledStorage(p.calls[p.next], m), m.gas);
        }
      case _ => Budget.TxWriters(g, e);
    }
  }

  lemma SameCount(l: Ledger, now: int, id: string, hash: string, storage: nat, gas: nat)
    ensures |RecordSigned(l, now, id, hash).Tables(l).txs| == |l.txs|
    ensures |Settle(l, hash, storage, gas).Tables(l).txs| == |l.txs|
  {
    hide ValidateExecution;
  }

  lemma {:induction false} ClosedStep(g: Gateway, e: Event, quote: string)
    requires Inv(g) && Closed(g, quote)
    ensures NothingNew(g, Apply(g, e), quote)
  {
    hide Inv, Apply, Admit, Reserve;
    var h := Apply(g, e);
    ClosedRefuses(g.world.ledger, g.now, quote);
    RowWriters(g, e);
    forall u | u in h.running && u.approval == quote && h.running[u].phase.Preparation?
      ensures u in g.running && g.running[u] == h.running[u]
    {
      PreparationWriters(g, e, u);
    }
  }

  // A paused approval, a cancelled one and one whose time is over spend nothing more: over every run
  // no transaction is added under it, every request under it is refused, and no upload of it starts.
  lemma {:induction false} ClosedNeverPays(g: Gateway, events: seq<Event>, quote: string, e: Event)
    requires Inv(g) && Closed(g, quote)
    ensures var h := Run(g, events);
      && Closed(h, quote)
      && NothingNew(g, h, quote)
      && (e.UploadRequest? && e.quote == quote ==> Admission(h, e).Failed? && Apply(h, e) == h)
      && (e.ReserveStep? && AtCall(h, e.id) && e.id.approval == quote ==> Apply(h, e).world == h.world)
  {
    hide Inv, Apply, Admit, Reserve, Closed;
    if |events| > 0 {
      var front := Run(g, events[..|events| - 1]);
      ClosedNeverPays(g, events[..|events| - 1], quote, e);
      RunKeeps(g, events[..|events| - 1]);
      ClosedStep(front, events[|events| - 1], quote);
      GT.StepForward(front, events[|events| - 1]);
      ClosedStays(front, Run(g, events), quote);
    }
    RefusedUnder(Run(g, events), e, quote);
  }

  lemma {:induction false} RefusedUnder(h: Gateway, e: Event, quote: string)
    requires Closed(h, quote)
    ensures e.UploadRequest? && e.quote == quote ==> Admission(h, e).Failed? && Apply(h, e) == h
    ensures e.ReserveStep? && AtCall(h, e.id) && e.id.approval == quote ==> Apply(h, e).world == h.world
  {
    hide Admit, Reserve;
    ClosedRefuses(h.world.ledger, h.now, quote);
  }

  // Once an upload of a quote needs recovery, so that its approval is paused, nothing else of the
  // quote is paid for.
  lemma {:induction false} PausedNeverSpends(g: Gateway, u: UploadId, events: seq<Event>)
    requires Inv(g)
    requires u in g.running && g.running[u].phase.Failing? && u in g.world.ledger.uploads
    requires FinalState(g, u, g.running[u].phase) == PaymentRecoveryRequired && HasTxOf(g.world.ledger.txs, u)
    ensures var h := Apply(g, FinishStep(u, true));
      && u.approval in h.world.ledger.approvals && h.world.ledger.approvals[u.approval].state == Paused
      && NothingNew(h, Run(h, events), u.approval)
  {
    var h := Apply(g, FinishStep(u, true));
    StepKeeps(g, FinishStep(u, true));
    PausedBy(g, u);
    hide Inv, Apply;
    ClosedNeverPays(h, events, u.approval, SweepResumes);
  }

  lemma {:induction false} PausedBy(g: Gateway, u: UploadId)
    requires Inv(g)
    requires u in g.running && g.running[u].phase.Failing? && u in g.world.ledger.uploads
    requires FinalState(g, u, g.running[u].phase) == PaymentRecoveryRequired && HasTxOf(g.world.ledger.txs, u)
    ensures var l := Apply(g, FinishStep(u, true)).world.ledger; u.approval in l.approvals && l.approvals[u.approval].state == Paused
  {
    hide Inv, HasTxOf, FinalState;
    assert g.world.ledger.uploads[u].approval == u.approval by { Parts(g); OwnApproval(g.world, u); }
    Budget.UploadApproved(g, u);
    assert Apply(g, FinishStep(u, true)).world.ledger == Finish(g.world.ledger, u, PaymentRecoveryRequired, None);
  }

  lemma OwnApproval(w: World, u: UploadId)
    requires WorldOk(w) && u in w.ledger.uploads
    ensures w.ledger.uploads[u].approval == u.approval
  {
    hide OriginsOrdered, RowOk, Journaled;
  }

  // An upload whose approval runs out while it prepares never begins to pay: it fails without the
  // signer's lock.
  lemma {:induction false} ExpiredNeverBegins(g: Gateway, events: seq<Event>, u: UploadId, prepared: Prepared)
    requires Inv(g) && u.approval in g.world.ledger.approvals && g.world.ledger.approvals[u.approval].definition.expiresAt <= g.now
    ensures var h := Run(g, events); var begun := Apply(h, PayBegin(u, prepared));
      && begun.lock == h.lock && begun.world == h.world
      && (begun == h || (u in begun.running && begun.running[u].phase.Failing?))
  {
    hide Inv, Apply;
    GT.RunForward(g, events);
    ExpiredBegin(Run(g, events), u, prepared);
  }

  lemma ExpiredBegin(h: Gateway, u: UploadId, prepared: Prepared)
    requires u.approval in h.world.ledger.approvals && h.world.ledger.approvals[u.approval].definition.expiresAt <= h.now
    ensures var begun := Apply(h, PayBegin(u, prepared));
      && begun.lock == h.lock && begun.world == h.world
      && (begun == h || (u in begun.running && begun.running[u].phase.Failing?))
  {
    hide StorageUpper, Calls, Consistent;
  }

  // -- The restore guard --

  lemma GuardRefuses(l: Ledger, now: int)
    requires l.guard
    ensures forall r: Reservation :: Reserve(l, now, r).Failed?
    ensures forall quote, key :: CancelUnpaid(l, now, quote, key).Failed?
  {
  }

  // While the journal may be older than the chain, nothing is reserved and nothing is revoked as
  // unpaid.
  lemma {:induction false} GuardStopsEverything(g: Gateway, events: seq<Event>, quote: string)
    requires Inv(g) && g.world.ledger.guard
    ensures var l, m := g.world.ledger, Run(g, events).world.ledger;
      && m.guard && |m.txs| == |l.txs|
      && (quote in m.approvals && m.approvals[quote].state == CancelledUnpaid ==>
            quote in l.approvals && l.approvals[quote].state == CancelledUnpaid)
      && !SigningEnabled(m)
  {
    hide Inv, Apply, Reserve, CancelUnpaid;
    if |events| > 0 {
      var front, e := Run(g, events[..|events| - 1]), events[|events| - 1];
      GuardStopsEverything(g, events[..|events| - 1], quote);
      RunKeeps(g, events[..|events| - 1]);
      GuardRefuses(front.world.ledger, front.now);
      RowWriters(front, e);
      CancelWriters(front, e, quote);
      GT.StepForward(front, e);
    }
  }

  // The approval was there with this definition, and is not cancelled unless it was.
  ghost predicate Stands(l: Ledger, m: Ledger, quote: string) {
    quote in m.approvals ==>
      && quote in l.approvals && m.approvals[quote].definition == l.approvals[quote].definition
      && (m.approvals[quote].state == CancelledUnpaid ==> l.approvals[quote].state == CancelledUnpaid)
  }

  lemma SigningStands(l: Ledger, now: int, r: Reservation, id: string, hash: string, storage: nat, gas: nat, quote: string)
    ensures Stands(l, Reserve(l, now, r).Tables(l), quote)
    ensures Stands(l, RecordSigned(l, now, id, hash).Tables(l), quote)
    ensures Stands(l, Settle(l, hash, storage, gas).Tables(l), quote)
  {
    hide ValidateExecution, Uncertain, CheckedReservation, RequireOpen, PaymentApproval.Validate, NewTx;
  }

  lemma EndsStand(l: Ledger, id: UploadId, requested: UploadState, result: Option<Receipt>, network: string, quote: string)
    ensures Stands(l, Finish(l, id, requested, result), quote)
    ensures Stands(l, Initialize(l, network), quote)
  {
    hide HasTxOf, AwaitsRecovery, MarkRecovery, MarkRetryable;
  }

  lemma {:induction false} ApprovalsStand(g: Gateway, e: Event, quote: string)
    requires !e.ApproveRequest? && !e.CancelRequest?
    ensures Stands(g.world.ledger, Apply(g, e).world.ledger, quote)
  {
    hide Activate, Admit, Reserve, RecordSigned, Settle, Finish, Initialize, CheckStorage, StorageUpper, Calls, NextReservation,
         Consistent, ChainAllows, Live, FinalState, HasStorageIntent, SettledStorage, Stands;
    var l := g.world.ledger;
    StandsAsItWas(l, l, quote);
    match e {
      case ActivateRequest(lease) =>
        ActivationStands(l, g.now, lease);
        StandsAsItWas(l, Apply(g, e).world.ledger, quote);
      case UploadRequest(q, sha, size, mode, key, _) =>
        AdmittedRow(l, g.now, UploadId(q, sha, mode), q, sha, size, mode, key);
        StandsAsItWas(l, Apply(g, e).world.ledger, quote);
      case ReserveStep(id, tx, nonce, gasUpper) =>
        if AtCall(g, id) { SigningStands(l, g.now, NextReservation(g, id, tx, nonce, gasUpper), "", "", 0, 0, quote); }
      case SignStep(id, hash) =>
        if AtCall(g, id) && g.running[id].phase.stage.Intended? && g.running[id].phase.stage.i < |l.txs| {
          SigningStands(l, g.now, Reservation("", id, "", 0, 0, 0), l.txs[g.running[id].phase.stage.i].id, hash, 0, 0, quote);
        }
      case SettleStep(id) =>
        if AtCall(g, id) && g.running[id].phase.stage.Sent? && HasHash(g, g.running[id].phase.stage.i)
           && RefOf(l.txs[g.running[id].phase.stage.i]) in g.world.mined
        {
          var p := g.running[id].phase;
          var m := g.world.mined[RefOf(l.txs[p.stage.i])];
          SigningStands(l, g.now, Reservation("", id, "", 0, 0, 0), "", l.txs[p.stage.i].hash.value, SettledStorage(p.calls[p.next], m), m.gas, quote);
        }
      case FinishStep(id, _) =>
        if id in g.running && g.running[id].phase.Succeeding? {
          EndsStand(l, id, Complete, Some(g.running[id].phase.receipt), "", quote);
        } else if id in g.running && g.running[id].phase.Failing? {
          EndsStand(l, id, FinalState(g, id, g.running[id].phase), None, "", quote);
        }
      case LoseCompletion(id, _) =>
        if id in g.running && g.running[id].phase.Succeeding? {
          EndsStand(l, id, Complete, Some(g.running[id].phase.receipt), "", quote);
        }
      case Restart(network) => EndsStand(l, UploadId("", "", ""), Complete, None, network, quote);
      case _ =>
    }
  }

  lemma StandsAsItWas(l: Ledger, m: Ledger, quote: string)
    ensures m.approvals == l.approvals ==> Stands(l, m, quote)
  {
  }

  lemma ActivationStands(l: Ledger, now: int, lease: PaymentLease)
    ensures Activate(l, now, lease).Tables(l).approvals == l.approvals
  {
  }

  lemma {:induction false} CancelWriters(g: Gateway, e: Event, quote: string)
    ensures var l, m := g.world.ledger, Apply(g, e).world.ledger;
      quote in m.approvals && m.approvals[quote].state == CancelledUnpaid ==>
        || (quote in l.approvals && l.approvals[quote].state == CancelledUnpaid)
        || (e.CancelRequest? && CancelUnpaid(l, g.now, e.quote, e.key).Done?)
  {
    if !e.ApproveRequest? && !e.CancelRequest? {
      hide Apply;
      ApprovalsStand(g, e, quote);
    } else {
      hide PaymentApproval.Validate, HasTxFor, HoldsLease;
    }
  }

  // -- What is ever stored --

  predicate HexDigest(s: string) {
    |s| == 64 && forall i :: 0 <= i < |s| ==> s[i] in "0123456789abcdef"
  }

  // An approval that names what it pays for: at least one object, each with its digest, size and mode,
  // two decimal caps, and a digest of all of it.
  ghost predicate Definite(a: PaymentApproval) {
    && 0 < |a.quoteId| <= 128 && 0 < |a.network| <= 512
    && 0 < |a.contents| <= 65_540
    && (forall c :: c in a.contents ==> HexDigest(c.sha256) && c.byteSize >= 3 && c.paymentMode in {"auto", "single", "merkle"})
    && a.contentDigest == ContentDigest(a.network, a.contents)
    && (exists n :: Amount(a.maxStorageAtto) == Some(n)) && (exists n :: Amount(a.maxGasWei) == Some(n))
  }

  ghost predicate StoredOk(g: Gateway) {
    && (forall a :: a in g.world.ledger.approvals ==>
          Definite(g.world.ledger.approvals[a].definition) && g.world.ledger.approvals[a].definition.expiresAt <= g.now + 86_400)
    && (forall a :: a in g.world.ledger.leases ==>
          && g.world.ledger.leases[a].generation > 0
          && g.world.ledger.leases[a].jobId != "" && g.world.ledger.leases[a].owner != ""
          && g.world.ledger.leases[a].expiresAt <= g.now + 3600)
    && (forall i :: 0 <= i < |g.world.ledger.txs| ==> g.world.ledger.txs[i].nonce < 0x8000_0000_0000_0000)
  }

  lemma ValidIsDefinite(a: PaymentApproval, now: int, network: string)
    requires a.Validate(now, network)
    ensures Definite(a) && now < a.expiresAt <= now + 86_400
  {
    forall c | c in a.contents ensures HexDigest(c.sha256) && c.byteSize >= 3 && c.paymentMode in {"auto", "single", "merkle"} {
      var i :| 0 <= i < |a.contents| && a.contents[i] == c;
      assert ValidContent(c);
      HexDigits(c.sha256);
    }
    assert Amount(a.maxStorageAtto) == Some(Amount(a.maxStorageAtto).value);
    assert Amount(a.maxGasWei) == Some(Amount(a.maxGasWei).value);
  }

  lemma HexDigits(s: string)
    requires |s| == 64 && forall i :: 0 <= i < |s| ==> LowerHexDigit(s[i])
    ensures HexDigest(s)
  {
    forall i | 0 <= i < |s| ensures s[i] in "0123456789abcdef" {
      HexChar(s[i]);
    }
  }

  lemma HexChar(c: char)
    requires LowerHexDigit(c)
    ensures c in "0123456789abcdef"
  {
    var all := "0123456789abcdef";
    if c <= '9' {
      assert all[c as int - '0' as int] == c;
    } else {
      assert all[10 + (c as int - 'a' as int)] == c;
    }
  }

  lemma {:induction false} ApprovalWriters(g: Gateway, e: Event, a: string)
    ensures var l, m := g.world.ledger, Apply(g, e).world.ledger;
      a in m.approvals ==>
        || (a in l.approvals && m.approvals[a].definition == l.approvals[a].definition)
        || (e.ApproveRequest? && m.approvals[a].definition == e.approval && e.approval.Validate(g.now, l.network))
  {
    if !e.ApproveRequest? && !e.CancelRequest? {
      hide Apply;
      ApprovalsStand(g, e, a);
    } else {
      hide PaymentApproval.Validate, HasTxFor, HoldsLease;
    }
  }

  lemma LeasesStored(l: Ledger, now: int, lease: PaymentLease, a: string)
    ensures var m := Activate(l, now, lease).Tables(l);
      a in m.leases ==>
        || (a in l.leases && m.leases[a] == l.leases[a])
        || (m.leases[a].generation > 0 && m.leases[a].jobId != "" && m.leases[a].owner != "" && now < m.leases[a].expiresAt <= now + 3600)
  {
  }

  lemma {:induction false} NonceKept(g: Gateway, e: Event, i: nat)
    requires Inv(g) && i < |Apply(g, e).world.ledger.txs|
    requires forall j :: 0 <= j < |g.world.ledger.txs| ==> g.world.ledger.txs[j].nonce < 0x8000_0000_0000_0000
    ensures Apply(g, e).world.ledger.txs[i].nonce < 0x8000_0000_0000_0000
  {
    hide Inv, Apply, Reserve;
    var l, m := g.world.ledger, Apply(g, e).world.ledger;
    RowWriters(g, e);
    GT.LedgerStep(g, e);
    if i < |l.txs| {
      assert LI.RowEvolves(l.txs[i], m.txs[i]);
    } else {
      NonceFits(l, g.now, NextReservation(g, e.id, e.tx, e.nonce, e.gasUpper));
    }
  }

  lemma NonceFits(l: Ledger, now: int, r: Reservation)
    ensures Reserve(l, now, r).Done? ==> r.nonce < 0x8000_0000_0000_0000
  {
  }

  lemma {:induction false} StoredStep(g: Gateway, e: Event)
    requires Inv(g) && StoredOk(g)
    ensures StoredOk(Apply(g, e))
  {
    hide Inv, Apply, Activate, Definite, LI.Evolves;
    var h := Apply(g, e);
    GT.StepForward(g, e);
    forall a | a in h.world.ledger.approvals
      ensures Definite(h.world.ledger.approvals[a].definition) && h.world.ledger.approvals[a].definition.expiresAt <= h.now + 86_400
    {
      ApprovalWriters(g, e, a);
      if e.ApproveRequest? && h.world.ledger.approvals[a].definition == e.approval && e.approval.Validate(g.now, g.world.ledger.network) {
        ValidIsDefinite(e.approval, g.now, g.world.ledger.network);
      }
    }
    forall a | a in h.world.ledger.leases
      ensures h.world.ledger.leases[a].generation > 0 && h.world.ledger.leases[a].jobId != "" && h.world.ledger.leases[a].owner != ""
      ensures h.world.ledger.leases[a].expiresAt <= h.now + 3600
    {
      if e.ActivateRequest? {
        LeasesStored(g.world.ledger, g.now, e.lease, a);
        ActivateApplied(g, e.lease);
      } else {
        GT.LeaseWriters(g, e);
      }
    }
    forall i | 0 <= i < |h.world.ledger.txs| ensures h.world.ledger.txs[i].nonce < 0x8000_0000_0000_0000 {
      NonceKept(g, e, i);
    }
  }

  lemma ActivateApplied(g: Gateway, lease: PaymentLease)
    ensures Apply(g, ActivateRequest(lease)).world.ledger == Activate(g.world.ledger, g.now, lease).Tables(g.world.ledger)
  {
  }

  // Over every run: each stored approval says exactly what it pays for, and no approval is open to
  // spending for more than a day, nor a lease for more than an hour.
  lemma {:induction false} StoredIsDefinite(g: Gateway, events: seq<Event>)
    requires Inv(g) && StoredOk(g)
    ensures StoredOk(Run(g, events))
  {
    hide Inv, Apply, StoredOk;
    if |events| > 0 {
      StoredIsDefinite(g, events[..|events| - 1]);
      RunKeeps(g, events[..|events| - 1]);
      StoredStep(Run(g, events[..|events| - 1]), events[|events| - 1]);
    }
  }

  // So a day later everything that was approved before is closed.
  lemma {:induction false} ADayLaterNothingIsOpen(g: Gateway, events: seq<Event>, quote: string)
    requires Inv(g) && StoredOk(g) && quote in g.world.ledger.approvals
    requires Run(g, events).now >= g.now + 86_400
    ensures Closed(Run(g, events), quote)
  {
    hide Inv, Apply, Definite;
    GT.RunForward(g, events);
  }

  // Equal digests are digests of the same objects on the same network.
  lemma {:induction false} DigestBindsContents(g: Gateway, a: string, b: string)
    requires StoredOk(g) && a in g.world.ledger.approvals && b in g.world.ledger.approvals
    requires g.world.ledger.approvals[a].definition.contentDigest == g.world.ledger.approvals[b].definition.contentDigest
    ensures var x, y := g.world.ledger.approvals[a].definition, g.world.ledger.approvals[b].definition;
      x.network == y.network && forall sha256, size: nat, mode :: x.Permits(sha256, size, mode) <==> y.Permits(sha256, size, mode)
  {
    assert Definite(g.world.ledger.approvals[a].definition) && Definite(g.world.ledger.approvals[b].definition);
  }
}