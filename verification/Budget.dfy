// Budget sufficiency. The caps of an approval are the sums of its objects' quotes, so while every
// object is prepared within its own quote, no object is ever refused for storage, in whatever order
// they are uploaded and however often each is retried.
module Budget {
  import opened Outcomes
  import opened Amounts
  import opened Contract
  import opened Sums
  import opened Ledger
  import opened Signer
  import opened Gateway
  import opened GatewayInvariant
  import opened GatewaySteps
  import opened GatewaySigning
  import GT = GatewayTheorems
  import FQ = FinalQuotes
  import LI = LedgerInvariant

  // -- What one upload holds of the budget, now and to the end of its run of `pay` --

  function HeldOf(u: UploadId): TxRow -> nat {
    (t: TxRow) => if t.upload == u then t.HeldStorage() else 0
  }

  function Remaining(p: Phase): nat {
    if p.Signing? then
      var from := if p.stage.Idle? then p.next else p.next + 1;
      if from <= |p.calls| then Sum(p.calls[from..], UpperOf()) else 0
    else 0
  }

  function Owed(g: Gateway, u: UploadId): nat {
    if u in g.running then Remaining(g.running[u].phase) else 0
  }

  function Commitment(g: Gateway, u: UploadId): nat {
    Sum(g.world.ledger.txs, HeldOf(u)) + Owed(g, u)
  }

  // -- One event at a time --

  lemma TxWriters(g: Gateway, e: Event)
    requires !e.ReserveStep? && !e.SignStep? && !e.SettleStep?
    ensures Apply(g, e).world.ledger.txs == g.world.ledger.txs
  {
    hide HoldsLease, HasTxFor, HasTxOf, StorageUpper, ValidateExecution, Uncertain, AwaitsRecovery, FindById, FindByHash,
         CheckedReservation, RequireOpen, HasStorageIntent, SettledStorage, ChainAllows, Consistent, Calls, Upper, Live,
         CheckStorage, MarkRecovery, MarkRetryable, PauseApprovals, PaymentApproval.Validate, PaymentApproval.Permits;
  }

  // Events that neither sign nor begin to pay only leave runs of `pay`, or go on within a call.
  lemma OwedWriters(g: Gateway, e: Event, u: UploadId)
    requires !e.ReserveStep? && !e.SettleStep? && !e.PayBegin? && !e.SignStep?
    ensures Owed(Apply(g, e), u) <= Owed(g, u)
  {
    hide Approve, Activate, CancelUnpaid, Admit, Reserve, RecordSigned, Settle, Finish, Initialize, CheckStorage, StorageUpper,
         SettledStorage, ChainAllows, Consistent, Calls, Upper, Live, HasStorageIntent, FinalState;
  }

  ghost predicate Kept(g: Gateway, h: Gateway, u: UploadId) {
    Commitment(h, u) <= Commitment(g, u)
  }

  lemma FailedOwes(g: Gateway, id: UploadId, c: ErrorClass, u: UploadId)
    requires id in g.running
    ensures Owed(Fail(g, id, c, false), u) <= Owed(g, u) && Fail(g, id, c, false).world == g.world
  {
  }

  lemma {:induction false} ReserveCommits(g: Gateway, id: UploadId, tx: string, nonce: nat, gasUpper: nat, u: UploadId)
    requires Inv(g) && AtCall(g, id) && g.running[id].phase.stage.Idle?
    ensures Kept(g, DoReserve(g, id, tx, nonce, gasUpper), u)
  {
    hide Inv, Reserve, Sum;
    var l, r := g.world.ledger, NextReservation(g, id, tx, nonce, gasUpper);
    var o := Reserve(l, g.now, r);
    if o.Failed? {
      FailedOwes(g, id, ClassOf(o.error), u);
    } else {
      ReserveShape(l, g.now, r);
      SumAppend(l.txs, NewTx(l, r), HeldOf(u));
      var p := g.running[id].phase;
      assert p.calls[p.next..] == [p.calls[p.next]] + p.calls[p.next + 1..];
      SumCons(p.calls[p.next], p.calls[p.next + 1..], UpperOf());
      assert UpperOf()(p.calls[p.next]) == Upper(p.calls[p.next]);
    }
  }

  lemma {:induction false} SignCommits(g: Gateway, id: UploadId, hash: string, u: UploadId)
    requires Inv(g)
    ensures Kept(g, Apply(g, SignStep(id, hash)), u)
  {
    hide Inv, RecordSigned, Sum, LI.Inv, LI.RowsIndependent, WorldOk;
    if AtCall(g, id) && g.running[id].phase.stage.Intended? && g.running[id].phase.stage.i < |g.world.ledger.txs| {
      var l, i := g.world.ledger, g.running[id].phase.stage.i;
      Parts(g);
      LedgerRow(l, i);
      var o := RecordSigned(l, g.now, l.txs[i].id, hash);
      if o.Failed? {
        FailedOwes(g, id, ClassOf(o.error), u);
      } else {
        SignShape(l, g.now, i, hash);
        SumUpdate(l.txs, i, o.tables.txs[i], HeldOf(u));
      }
    }
  }

  lemma {:induction false} SettleCommits(g: Gateway, id: UploadId, m: Mined, u: UploadId)
    requires Inv(g) && AtCall(g, id) && g.running[id].phase.stage.Sent? && HasHash(g, g.running[id].phase.stage.i)
    ensures Kept(g, DoSettle(g, id, g.running[id].phase.stage.i, m), u)
  {
    hide Inv, LI.Inv, LI.RowsIndependent, WorldOk, SigningOk, Settle, Sum, SettledStorage;
    var l, i := g.world.ledger, g.running[id].phase.stage.i;
    Parts(g);
    SigningTask(g, id);
    StageRow(g.world, id, g.running[id].run, g.running[id].phase);
    LedgerRow(l, i);
    var storage := SettledStorage(g.running[id].phase.calls[g.running[id].phase.next], m);
    var o := Settle(l, l.txs[i].hash.value, storage, m.gas);
    SettleShape(l, i, storage, m.gas);
    if o.Failed? {
      FailedOwes(g, id, ClassOf(o.error), u);
    } else {
      SumUpdate(l.txs, i, o.tables.txs[i], HeldOf(u));
      FailedOwes(WithLedger(g, o.tables), id, NeedsRecovery, u);
    }
  }

  // Only the start of a run of `pay` can raise what an upload commits, and then to the bound that
  // was checked.
  lemma {:induction false} CommitmentStep(g: Gateway, e: Event, u: UploadId)
    requires Inv(g)
    ensures Kept(g, Apply(g, e), u)
      || (e.PayBegin? && e.id == u && Begins(g, e) && Commitment(Apply(g, e), u) == StorageUpper(e.prepared).value)
  {
    hide DoReserve, DoSign, DoSettle, Sum;
    match e {
      case ReserveStep(id, tx, nonce, gasUpper) =>
        if AtCall(g, id) && g.running[id].phase.stage.Idle? { ReserveCommits(g, id, tx, nonce, gasUpper, u); }
      case SignStep(id, hash) => SignCommits(g, id, hash, u);
      case SettleStep(id) =>
        if AtCall(g, id) && g.running[id].phase.stage.Sent? && HasHash(g, g.running[id].phase.stage.i)
           && RefOf(g.world.ledger.txs[g.running[id].phase.stage.i]) in g.world.mined
        {
          SettleCommits(g, id, g.world.mined[RefOf(g.world.ledger.txs[g.running[id].phase.stage.i])], u);
        }
      case PayBegin(id, prepared) => BeginCommits(g, id, prepared, u);
      case _ =>
        TxWriters(g, e);
        OwedWriters(g, e, u);
    }
  }

  // A run of `pay` starts: its bound is known and passed the storage check.
  ghost predicate Begins(g: Gateway, e: Event) {
    && e.PayBegin? && e.id in g.running && g.running[e.id].phase.Preparation? && Consistent(e.prepared)
    && StorageUpper(e.prepared).Some?
  }

  lemma {:induction false} BeginCommits(g: Gateway, id: UploadId, prepared: Prepared, u: UploadId)
    requires Inv(g)
    ensures var h := Apply(g, PayBegin(id, prepared));
      Kept(g, h, u)
      || (id == u && Begins(g, PayBegin(id, prepared)) && Commitment(h, u) == StorageUpper(prepared).value)
  {
    hide Inv, CheckStorage, Calls, StorageUpper, Sum;
    if id in g.running && g.running[id].phase.Preparation? && g.lock.None? && Consistent(prepared) {
      hide Consistent;
      Unpaid(g, id);
      var h := Begin(g, id, prepared);
      if StorageUpper(prepared).Some? {
        CallsSum(prepared);
        assert Calls(prepared)[0..] == Calls(prepared);
        var checked := CheckStorage(g.world.ledger, g.now, id.approval, StorageUpper(prepared).value);
        if checked.Err? {
          FailedOwes(g, id, ClassOf(checked.error), u);
        }
      } else {
        FailedOwes(g, id, NeedsRecovery, u);
      }
    }
  }

  // An upload still in preparation has no transaction.
  lemma Unpaid(g: Gateway, id: UploadId)
    requires Inv(g)
    requires id in g.running && g.running[id].phase.Preparation?
    ensures Sum(g.world.ledger.txs, HeldOf(id)) == 0
  {
    hide OriginsOrdered, RowOk, Journaled, SessionsOk, CompletesOk, LI.TxsOk, LI.ApprovalsOk;
    assert TaskOk(g.world, id, g.running[id]);
    assert LI.UploadOk(g.world.ledger, id);
    SumZero(g.world.ledger.txs, HeldOf(id));
  }

  // -- Over a run --

  // The object's own quote: the cost of the first content of the approval with its digest and mode.
  function FirstMatch(contents: seq<ApprovedContent>, u: UploadId): (r: Option<nat>)
    ensures r.Some? ==> r.value < |contents| && contents[r.value].sha256 == u.sha256 && contents[r.value].paymentMode == u.mode
    ensures r.None? ==> forall i :: 0 <= i < |contents| ==> !(contents[i].sha256 == u.sha256 && contents[i].paymentMode == u.mode)
  {
    if |contents| == 0 then None
    else
      var front := FirstMatch(contents[..|contents| - 1], u);
      var last := contents[|contents| - 1];
      if front.Some? then front
      else if last.sha256 == u.sha256 && last.paymentMode == u.mode then Some(|contents| - 1)
      else None
  }

  ghost predicate WithinQuote(contents: seq<ApprovedContent>, costs: seq<nat>, u: UploadId, amount: nat)
    requires |costs| == |contents|
  {
    FirstMatch(contents, u).Some? ==> amount <= costs[FirstMatch(contents, u).value]
  }

  // Every object of the approval is prepared, each time, within its own quote.
  ghost predicate PreparedWithinQuotes(contents: seq<ApprovedContent>, costs: seq<nat>, a: string, events: seq<Event>)
    requires |costs| == |contents|
  {
    forall k :: 0 <= k < |events| && events[k].PayBegin? && events[k].id.approval == a && StorageUpper(events[k].prepared).Some? ==>
      WithinQuote(contents, costs, events[k].id, StorageUpper(events[k].prepared).value)
  }

  // Until its approval exists an upload has no transaction and no run of `pay`.
  lemma NothingCommitted(g: Gateway, u: UploadId)
    requires Inv(g) && u.approval !in g.world.ledger.approvals
    ensures Commitment(g, u) == 0
  {
    hide OriginsOrdered, RowOk, Journaled, SessionsOk, CompletesOk, LI.RowsIndependent, LI.RowShape, SigningOk, Sealed;
    var l := g.world.ledger;
    assert u !in l.uploads by {
      assert u in l.uploads ==> LI.UploadOk(l, u);
    }
    if u in g.running {
      assert TaskOk(g.world, u, g.running[u]);
    }
    forall i | 0 <= i < |l.txs| ensures HeldOf(u)(l.txs[i]) == 0 {
      assert LI.Linked(l, l.txs[i]);
    }
    SumZero(l.txs, HeldOf(u));
  }

  lemma {:induction false} CommitmentWithinQuote(g: Gateway, events: seq<Event>, contents: seq<ApprovedContent>, costs: seq<nat>, u: UploadId)
    requires Inv(g) && u.approval !in g.world.ledger.approvals
    requires |costs| == |contents| && PreparedWithinQuotes(contents, costs, u.approval, events)
    ensures WithinQuote(contents, costs, u, Commitment(Run(g, events), u))
  {
    hide Inv, Apply, Commitment;
    if |events| == 0 {
      NothingCommitted(g, u);
    } else {
      var front, last := events[..|events| - 1], events[|events| - 1];
      CommitmentWithinQuote(g, front, contents, costs, u);
      RunKeeps(g, front);
      CommitmentStep(Run(g, front), last, u);
      assert events[|events| - 1] == last;
    }
  }

  // -- Adding the objects up --

  // What the transactions of an approval's first `k` contents hold.
  function HeldUpTo(a: string, contents: seq<ApprovedContent>, k: nat): TxRow -> nat {
    (t: TxRow) =>
      if t.upload.approval == a && FirstMatch(contents, t.upload).Some? && FirstMatch(contents, t.upload).value < k
      then t.HeldStorage() else 0
  }

  function UploadOf(a: string, c: ApprovedContent): UploadId {
    UploadId(a, c.sha256, c.paymentMode)
  }

  lemma {:induction false} SumAdds(txs: seq<TxRow>, f: TxRow -> nat, g: TxRow -> nat, h: TxRow -> nat)
    requires forall t :: h(t) == f(t) + g(t)
    ensures Sum(txs, h) == Sum(txs, f) + Sum(txs, g)
  {
    if |txs| > 0 {
      SumAdds(txs[..|txs| - 1], f, g, h);
    }
  }

  // `bounds` bounds what each content's upload holds.
  ghost predicate Bounds(txs: seq<TxRow>, a: string, contents: seq<ApprovedContent>, bounds: seq<nat>)
    requires |bounds| == |contents|
  {
    forall i :: 0 <= i < |contents| && FirstMatch(contents, UploadOf(a, contents[i])) == Some(i) ==>
      Sum(txs, HeldOf(UploadOf(a, contents[i]))) <= bounds[i]
  }

  function Only(u: UploadId, counted: bool): TxRow -> nat {
    (t: TxRow) => if counted && t.upload == u then t.HeldStorage() else 0
  }

  lemma NextContent(a: string, contents: seq<ApprovedContent>, k: nat, t: TxRow)
    requires k < |contents|
    ensures var u := UploadOf(a, contents[k]);
      HeldUpTo(a, contents, k + 1)(t) == HeldUpTo(a, contents, k)(t) + Only(u, FirstMatch(contents, u) == Some(k))(t)
  {
    hide FirstMatch;
    var u := UploadOf(a, contents[k]);
    if t.upload.approval == a && FirstMatch(contents, t.upload) == Some(k) {
      assert t.upload == u;
    }
  }

  lemma {:induction false} HeldWithinBounds(txs: seq<TxRow>, a: string, contents: seq<ApprovedContent>, bounds: seq<nat>, k: nat)
    requires |bounds| == |contents| && Bounds(txs, a, contents, bounds) && k <= |contents|
    ensures Sum(txs, HeldUpTo(a, contents, k)) <= Sum(bounds[..k], (n: nat) => n)
  {
    hide FirstMatch;
    if k == 0 {
      SumZero(txs, HeldUpTo(a, contents, 0));
    } else {
      HeldWithinBounds(txs, a, contents, bounds, k - 1);
      var u := UploadOf(a, contents[k - 1]);
      var counted := FirstMatch(contents, u) == Some(k - 1);
      forall t ensures HeldUpTo(a, contents, k)(t) == HeldUpTo(a, contents, k - 1)(t) + Only(u, counted)(t) {
        NextContent(a, contents, k - 1, t);
      }
      SumAdds(txs, HeldUpTo(a, contents, k - 1), Only(u, counted), HeldUpTo(a, contents, k));
      if counted {
        SumEqual(txs, Only(u, counted), HeldOf(u));
      } else {
        SumZero(txs, Only(u, counted));
      }
      assert bounds[..k][..k - 1] == bounds[..k - 1];
    }
  }

  // -- Every upload is of a permitted content --

  ghost predicate Permitted(l: Ledger) {
    forall u :: u in l.uploads && u.approval in l.approvals ==>
      FirstMatch(l.approvals[u.approval].definition.contents, u).Some?
  }

  lemma {:induction false} UploadKeys(g: Gateway, e: Event)
    requires !e.UploadRequest?
    ensures Apply(g, e).world.ledger.uploads.Keys == g.world.ledger.uploads.Keys
  {
    hide Reserve, Finish, HasStorageIntent, FinalState, HasTxOf, AwaitsRecovery;
    match e {
      case ReserveStep(id, tx, nonce, gasUpper) =>
        if AtCall(g, id) { ReserveShape(g.world.ledger, g.now, NextReservation(g, id, tx, nonce, gasUpper)); }
      case FinishStep(id, _) => FinishKeys(g, id);
      case LoseCompletion(id, _) => FinishKeys(g, id);
      case Restart(network) =>
      case _ => GT.UploadWriters(g, e);
    }
  }

  lemma FinishKeys(g: Gateway, id: UploadId)
    ensures id in g.running && (g.running[id].phase.Failing? || g.running[id].phase.Succeeding?) ==>
      Written(g, id, g.running[id].phase).uploads.Keys == g.world.ledger.uploads.Keys
  {
    hide HasStorageIntent, HasTxOf;
  }

  lemma AdmittedPermits(l: Ledger, now: int, id: UploadId, quote: string, sha256: string, size: nat, mode: string, key: string)
    ensures var o := Admit(l, now, id, quote, sha256, size, mode, key);
      && o.Tables(l).approvals == l.approvals
      && (forall u :: u in o.Tables(l).uploads ==> u in l.uploads || u == id)
      && (o.Done? ==> quote in l.approvals && l.approvals[quote].definition.Permits(sha256, size, mode))
  {
    hide PaymentApproval.Validate, PaymentApproval.Permits, HoldsLease, HasTxOf;
  }

  lemma PermitsMatches(a: PaymentApproval, quote: string, sha256: string, size: nat, mode: string)
    requires a.Permits(sha256, size, mode)
    ensures FirstMatch(a.contents, UploadId(quote, sha256, mode)).Some?
  {
  }

  lemma NewUpload(g: Gateway, e: Event, u: UploadId)
    requires e.UploadRequest? && u in Apply(g, e).world.ledger.uploads && u !in g.world.ledger.uploads
    ensures u.approval in g.world.ledger.approvals && FirstMatch(g.world.ledger.approvals[u.approval].definition.contents, u).Some?
  {
    hide Admit, PaymentApproval.Permits, FirstMatch;
    var id := UploadId(e.quote, e.sha256, e.mode);
    AdmittedPermits(g.world.ledger, g.now, id, e.quote, e.sha256, e.size, e.mode, e.leaseKey);
    PermitsMatches(g.world.ledger.approvals[e.quote].definition, e.quote, e.sha256, e.size, e.mode);
  }

  lemma UploadApproved(g: Gateway, u: UploadId)
    requires Inv(g) && u in g.world.ledger.uploads
    ensures u.approval in g.world.ledger.approvals
  {
    hide OriginsOrdered, RowOk, Journaled, SessionsOk, CompletesOk, TasksOk, LI.TxsOk, LI.ApprovalsOk;
    assert LI.UploadOk(g.world.ledger, u);
  }

  lemma DefinitionStands(l: Ledger, m: Ledger, a: string)
    requires LI.Evolves(l, m) && a in l.approvals
    ensures a in m.approvals && m.approvals[a].definition == l.approvals[a].definition
  {
  }

  lemma {:induction false} PermittedStep(g: Gateway, e: Event)
    requires Inv(g) && Permitted(g.world.ledger)
    ensures Permitted(Apply(g, e).world.ledger)
  {
    hide Inv, Apply, FirstMatch, LI.Evolves;
    var l, m := g.world.ledger, Apply(g, e).world.ledger;
    GT.LedgerStep(g, e);
    forall u | u in m.uploads && u.approval in m.approvals
      ensures FirstMatch(m.approvals[u.approval].definition.contents, u).Some?
    {
      if !e.UploadRequest? {
        UploadKeys(g, e);
        assert u in l.uploads.Keys;
      }
      if u in l.uploads {
        UploadApproved(g, u);
      } else {
        NewUpload(g, e, u);
      }
      DefinitionStands(l, m, u.approval);
    }
  }

  lemma {:induction false} PermittedRun(g: Gateway, events: seq<Event>)
    requires Inv(g) && Permitted(g.world.ledger)
    ensures Permitted(Run(g, events).world.ledger)
  {
    hide Inv, Apply, Permitted;
    if |events| > 0 {
      PermittedRun(g, events[..|events| - 1]);
      RunKeeps(g, events[..|events| - 1]);
      PermittedStep(Run(g, events[..|events| - 1]), events[|events| - 1]);
    }
  }

  // -- The theorem --

  // The row of every transaction of the approval counts under some content.
  lemma AllCounted(g: Gateway, a: string)
    requires Inv(g) && Permitted(g.world.ledger) && a in g.world.ledger.approvals
    ensures var contents := g.world.ledger.approvals[a].definition.contents;
      g.world.ledger.approvals[a].reservedStorage == Sum(g.world.ledger.txs, HeldUpTo(a, contents, |contents|))
  {
    hide OriginsOrdered, RowOk, Journaled, SessionsOk, CompletesOk, TasksOk, LI.RowsIndependent, LI.RowShape, FirstMatch;
    var l := g.world.ledger;
    var contents := l.approvals[a].definition.contents;
    assert LI.ApprovalOk(l, a);
    forall i | 0 <= i < |l.txs| ensures LI.HeldStorageFor(a)(l.txs[i]) == HeldUpTo(a, contents, |contents|)(l.txs[i]) {
      assert LI.Linked(l, l.txs[i]) && l.uploads[l.txs[i].upload].approval == l.txs[i].upload.approval;
    }
    SumEqual(l.txs, LI.HeldStorageFor(a), HeldUpTo(a, contents, |contents|));
  }

  // After any run since its approval was made: an object prepared within its quote passes the
  // storage check, because everything else the approval holds is within the other quotes.
  lemma {:induction false} BudgetSuffices(g: Gateway, events: seq<Event>, a: string, costs: seq<nat>, id: UploadId, upper: nat)
    requires Inv(g) && Permitted(g.world.ledger) && a !in g.world.ledger.approvals
    requires a in Run(g, events).world.ledger.approvals
    requires var d := Run(g, events).world.ledger.approvals[a].definition;
      && |costs| == |d.contents| && d.StorageCap() == Sum(costs, (n: nat) => n)
      && PreparedWithinQuotes(d.contents, costs, a, events)
      && FirstMatch(d.contents, id).Some? && upper <= costs[FirstMatch(d.contents, id).value]
    requires var h := Run(g, events);
      id.approval == a && id in h.running && h.running[id].phase.Preparation?
    ensures var h := Run(g, events);
      && h.world.ledger.approvals[a].reservedStorage + upper <= h.world.ledger.approvals[a].definition.StorageCap()
      && CheckStorage(h.world.ledger, h.now, a, upper) !in {Err(StorageCapExceeded), Err(AmountOverflow)}
  {
    var h := Run(g, events);
    var row := h.world.ledger.approvals[a];
    var contents, txs := row.definition.contents, h.world.ledger.txs;
    hide Inv, Apply, Run, FirstMatch, Permitted, PreparedWithinQuotes, CheckStorage, HeldUpTo, PaymentApproval.StorageCap, Sum, Bounds;
    RunKeeps(g, events);
    PermittedRun(g, events);
    AllCounted(h, a);
    var at := FirstMatch(contents, id).value;
    var others := costs[at := 0];
    OthersBounded(g, events, contents, costs, id);
    HeldWithinBounds(txs, a, contents, others, |contents|);
    assert others[..|contents|] == others;
    SumUpdate(costs, at, 0, (n: nat) => n);
    GT.CapFits(row.definition);
    RoomEnough(h.world.ledger, h.now, a, upper);
  }

  lemma RoomEnough(l: Ledger, now: int, a: string, upper: nat)
    requires a in l.approvals
    requires l.approvals[a].reservedStorage + upper <= l.approvals[a].definition.StorageCap() < U128_LIMIT
    ensures CheckStorage(l, now, a, upper) !in {Err(StorageCapExceeded), Err(AmountOverflow)}
  {
    hide PaymentApproval.StorageCap;
  }

  // What the other objects hold is within their quotes; this one, still in preparation, holds nothing.
  lemma {:induction false} OthersBounded(g: Gateway, events: seq<Event>, contents: seq<ApprovedContent>, costs: seq<nat>, id: UploadId)
    requires Inv(g) && id.approval !in g.world.ledger.approvals
    requires |costs| == |contents| && PreparedWithinQuotes(contents, costs, id.approval, events)
    requires FirstMatch(contents, id).Some?
    requires var h := Run(g, events); id in h.running && h.running[id].phase.Preparation?
    ensures Bounds(Run(g, events).world.ledger.txs, id.approval, contents, costs[FirstMatch(contents, id).value := 0])
  {
    hide Inv, Apply, Run, FirstMatch, Commitment, PreparedWithinQuotes, Sum;
    var h, a := Run(g, events), id.approval;
    var at, txs := FirstMatch(contents, id).value, h.world.ledger.txs;
    RunKeeps(g, events);
    Unpaid(h, id);
    forall i | 0 <= i < |contents| && FirstMatch(contents, UploadOf(a, contents[i])) == Some(i)
      ensures Sum(txs, HeldOf(UploadOf(a, contents[i]))) <= costs[at := 0][i]
    {
      var u := UploadOf(a, contents[i]);
      CommitmentWithinQuote(g, events, contents, costs, u);
      HeldIsCommitted(h, u);
      MatchedUpload(contents, id, a, i);
    }
  }

  lemma HeldIsCommitted(g: Gateway, u: UploadId)
    ensures Sum(g.world.ledger.txs, HeldOf(u)) <= Commitment(g, u)
  {
  }

  // The first content of an upload's digest and mode is the upload's.
  lemma MatchedUpload(contents: seq<ApprovedContent>, id: UploadId, a: string, i: nat)
    requires FirstMatch(contents, id).Some? && id.approval == a && i < |contents|
    ensures i == FirstMatch(contents, id).value ==> UploadOf(a, contents[i]) == id
  {
  }

  function QuotedCosts(quotes: seq<FQ.ContentQuote>): seq<nat> {
    seq<nat>(|quotes|, i requires 0 <= i < |quotes| => FQ.CostOf(false)(quotes[i]))
  }

  lemma {:induction false} QuotedCostsSum(quotes: seq<FQ.ContentQuote>)
    ensures Sum(QuotedCosts(quotes), (n: nat) => n) == Sum(quotes, FQ.CostOf(false))
  {
    if |quotes| > 0 {
      var front := quotes[..|quotes| - 1];
      QuotedCostsSum(front);
      assert QuotedCosts(quotes)[..|quotes| - 1] == QuotedCosts(front);
    }
  }

  // So with an approval as the final quote builds it, every planned object fits.
  lemma PlannedUploadsFit(g: Gateway, events: seq<Event>, quotes: seq<FQ.ContentQuote>, network: string, a: string, built: int,
                          lifetime: int, id: UploadId, upper: nat)
    requires Inv(g) && Permitted(g.world.ledger) && a !in g.world.ledger.approvals
    requires var made := FQ.BuildApproval(quotes, network, a, built, lifetime);
      && made.Ok? && a in Run(g, events).world.ledger.approvals
      && Run(g, events).world.ledger.approvals[a].definition == made.value
    requires PreparedWithinQuotes(FQ.Contents(quotes), QuotedCosts(quotes), a, events)
    requires var h := Run(g, events); id.approval == a && id in h.running && h.running[id].phase.Preparation?
    requires FirstMatch(FQ.Contents(quotes), id).Some?
    requires upper <= QuotedCosts(quotes)[FirstMatch(FQ.Contents(quotes), id).value]
    ensures var h := Run(g, events);
      CheckStorage(h.world.ledger, h.now, a, upper) !in {Err(StorageCapExceeded), Err(AmountOverflow)}
  {
    hide Inv, Run, Permitted, PreparedWithinQuotes, CheckStorage, FirstMatch, PaymentApproval.StorageCap, PaymentApproval.Validate;
    FQ.BuiltCaps(quotes, network, a, built, lifetime);
    QuotedCostsSum(quotes);
    BudgetSuffices(g, events, a, QuotedCosts(quotes), id, upper);
  }
}
