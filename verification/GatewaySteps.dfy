// Every event of the gateway machine keeps its invariant.
module GatewaySteps {
  import opened Outcomes
  import opened Amounts
  import opened Contract
  import opened Sums
  import opened Ledger
  import opened Signer
  import opened Gateway
  import opened GatewayInvariant
  import LI = LedgerInvariant

  // -- Outside requests --

  lemma SameRowsWorld(w: World, v: World)
    requires WorldOk(w)
    requires v == w.(ledger := v.ledger) && v.ledger.txs == w.ledger.txs
    requires forall u :: u in v.ledger.uploads ==> v.ledger.uploads[u].approval == u.approval
    ensures WorldOk(v)
  {
    forall i | 0 <= i < |v.ledger.txs| ensures RowOk(v, i) {
      assert RowOk(w, i);
    }
    forall r | r in v.broadcast ensures Journaled(v, r) {
      assert Journaled(w, r);
    }
  }

  // A journal step that keeps every transaction, upload and reserved total.
  lemma LedgerOnly(g: Gateway, l: Ledger)
    requires Inv(g)
    requires LI.Inv(l)
    requires l.txs == g.world.ledger.txs && l.uploads == g.world.ledger.uploads && l.network == g.world.ledger.network
    requires forall a :: a in g.world.ledger.approvals ==>
      && a in l.approvals
      && l.approvals[a].definition == g.world.ledger.approvals[a].definition
      && l.approvals[a].reservedStorage == g.world.ledger.approvals[a].reservedStorage
    ensures Inv(WithLedger(g, l))
  {
    hide LI.Inv;
    var v := WithLedger(g, l).world;
    forall u ensures SameFor(g.world, v, u) && RoomKept(g.world, v, u.approval) {
    }
    SameRowsWorld(g.world, v);
    Ambient(g, v);
  }

  // The world moved, but no upload's rows did.
  lemma Ambient(g: Gateway, v: World)
    requires Inv(g)
    requires LI.Inv(v.ledger) && WorldOk(v)
    requires v.origins == g.world.origins
    requires forall u :: SameFor(g.world, v, u) && RoomKept(g.world, v, u.approval)
    ensures Inv(g.(world := v))
  {
    hide SameFor, RoomKept, LI.Inv, TaskOk, SessionOk, CompleteOk;
    var g' := g.(world := v);
    forall u
      ensures u in g.running ==> TaskOk(v, u, g.running[u])
      ensures u in g.resumes ==> SessionOk(v, u, g.resumes[u])
      ensures u in v.ledger.uploads ==> CompleteOk(v, u)
    {
      OthersKept(g, v, u);
    }
  }

  lemma {:induction false} OutsideStep(g: Gateway, e: Event)
    requires Inv(g)
    requires e.ApproveRequest? || e.ActivateRequest? || e.CancelRequest?
    ensures Inv(Apply(g, e))
  {
    hide Inv, LI.Inv;
    var l := g.world.ledger;
    assert LI.Inv(l) by { Parts(g); }
    match e {
      case ApproveRequest(a) =>
        LI.ApproveKeeps(l, g.now, a);
        LedgerOnly(g, Approve(l, g.now, a).Tables(l));
      case ActivateRequest(lease) =>
        LI.ActivateKeeps(l, g.now, lease);
        LedgerOnly(g, Activate(l, g.now, lease).Tables(l));
      case CancelRequest(q, key) =>
        LI.CancelKeeps(l, g.now, q, key);
        LedgerOnly(g, CancelUnpaid(l, g.now, q, key).Tables(l));
    }
  }

  lemma Parts(g: Gateway)
    requires Inv(g)
    ensures LI.Inv(g.world.ledger) && WorldOk(g.world)
  {
  }

  // -- Admission --

  lemma AdmittedRow(l: Ledger, now: int, id: UploadId, quote: string, sha256: string, size: nat, mode: string, key: string)
    ensures var o := Admit(l, now, id, quote, sha256, size, mode, key);
      o.Done? ==>
        && (!o.value ==> o.tables == l)
        && (o.value ==>
              && id in o.tables.uploads
              && o.tables == l.(uploads := l.uploads[id := o.tables.uploads[id]])
              && o.tables.uploads[id].state == Preparing
              && o.tables.uploads[id].leaseKey == key
              && o.tables.uploads[id].approval == quote
              && (id in l.uploads ==> l.uploads[id].state == Retryable))
  {
  }

  lemma {:induction false} UploadStep(g: Gateway, e: Event)
    requires Inv(g)
    requires e.UploadRequest?
    ensures Inv(DoUpload(g, e))
  {
    hide Inv, LI.Inv, Admit, WorldOk;
    var id := UploadId(e.quote, e.sha256, e.mode);
    var l := g.world.ledger;
    var o := Admission(g, e);
    AdmittedRow(l, g.now, id, e.quote, e.sha256, e.size, e.mode, e.leaseKey);
    if id !in g.running && o.Done? {
      assert !o.value ==> WithLedger(g, o.tables) == g;
      if o.value {
        assert LI.Inv(o.tables) by {
          Parts(g);
          LI.AdmitKeeps(l, g.now, id, e.quote, e.sha256, e.size, e.mode, e.leaseKey);
        }
        Admitted(g, id, o.tables.uploads[id], e.leaseKey, e.dropped);
      }
    }
  }

  // An admission touches one upload, which has no task, no session and no transaction.
  lemma SameChain(w: World, v: World)
    requires v.broadcast == w.broadcast && v.mined == w.mined
    ensures ChainGrows(w, v)
  {
  }

  lemma {:induction false} Admitted(g: Gateway, id: UploadId, row: UploadRow, key: string, dropped: bool)
    requires Inv(g)
    requires id !in g.running
    requires row.state == Preparing && row.approval == id.approval && row.leaseKey == key
    requires id in g.world.ledger.uploads ==> g.world.ledger.uploads[id].state == Retryable
    requires LI.Inv(g.world.ledger.(uploads := g.world.ledger.uploads[id := row]))
    ensures var g' := WithLedger(g, g.world.ledger.(uploads := g.world.ledger.uploads[id := row]));
      && Inv(g')
      && Inv(g'.(running := g.running[id := Task(g.nextRun, key, Preparation)], nextRun := g.nextRun + 1))
  {
    hide LI.Inv, SigningOk, OriginsOrdered, RowOk, Journaled, ChainGrows;
    assert id !in g.resumes;
    var g' := WithLedger(g, g.world.ledger.(uploads := g.world.ledger.uploads[id := row]));
    var g'' := g'.(running := g.running[id := Task(g.nextRun, key, Preparation)], nextRun := g.nextRun + 1);
    SameRowsWorld(g.world, g'.world);
    assert ChainGrows(g.world, g'.world) by { SameChain(g.world, g'.world); }
    forall u ensures u != id ==> SameFor(g.world, g'.world, u) && RoomKept(g.world, g'.world, u.approval) {
      OtherUploads(g.world, id, row, u);
    }
    assert TaskOk(g'.world, id, g''.running[id]);
    assert CompleteOk(g'.world, id);
    hide SameFor, RoomKept, TaskOk, SessionOk, CompleteOk, WorldOk;
    Joined(g, g', id);
    Joined(g, g'', id);
  }

  lemma OtherUploads(w: World, id: UploadId, row: UploadRow, u: UploadId)
    requires |w.origins| == |w.ledger.txs|
    ensures var v := w.(ledger := w.ledger.(uploads := w.ledger.uploads[id := row]));
      u != id ==> SameFor(w, v, u) && RoomKept(w, v, u.approval)
  {
  }

  // A new task, or none, for an upload that had neither task nor session.
  lemma {:induction false} Joined(g: Gateway, g': Gateway, id: UploadId)
    requires Inv(g)
    requires id !in g.running && id !in g.resumes
    requires g'.running.Keys <= g.running.Keys + {id}
    requires g.running.Keys <= g'.running.Keys
    requires forall u :: u in g.running ==> g'.running[u] == g.running[u]
    requires g'.resumes == g.resumes && g'.lock == g.lock && g.nextRun <= g'.nextRun
    requires id in g'.running ==> g'.running[id].run < g'.nextRun && !g'.running[id].phase.Signing?
    requires g'.world.origins == g.world.origins
    requires LI.Inv(g'.world.ledger) && WorldOk(g'.world)
    requires forall u :: u != id ==> SameFor(g.world, g'.world, u) && RoomKept(g.world, g'.world, u.approval)
    requires id in g'.running ==> TaskOk(g'.world, id, g'.running[id])
    requires id in g'.world.ledger.uploads ==> CompleteOk(g'.world, id)
    ensures Inv(g')
  {
    hide SameFor, RoomKept, LI.Inv, TaskOk, SessionOk, CompleteOk;
    forall u | u != id
      ensures u in g.running ==> TaskOk(g'.world, u, g.running[u])
      ensures u in g.resumes ==> SessionOk(g'.world, u, g.resumes[u])
      ensures u in g'.world.ledger.uploads ==> CompleteOk(g'.world, u)
    {
      OthersKept(g, g'.world, u);
    }
  }

  // -- Beginning to pay --

  lemma NothingSpent(w: World, u: UploadId)
    requires !HasTxOf(w.ledger.txs, u)
    ensures Spent(w, u) == Receipt(0, 0)
  {
    SumZero(w.ledger.txs, SpentStorage(u));
    SumZero(w.ledger.txs, SpentGas(u));
  }

  lemma NotLeaving(g: Gateway, id: UploadId)
    requires Inv(g) && id in g.running && !LeavingPartial(g.running[id].phase)
    ensures id !in g.resumes
  {
    hide LI.Inv, WorldOk, CompletesOk, SessionOk;
  }

  lemma RoomFor(l: Ledger, now: int, a: string, upper: nat)
    requires CheckStorage(l, now, a, upper).Ok?
    ensures a in l.approvals
    ensures l.approvals[a].reservedStorage + upper <= l.approvals[a].definition.StorageCap()
  {
  }

  lemma {:induction false} BeginStep(g: Gateway, id: UploadId, prepared: Prepared)
    requires Inv(g)
    ensures Inv(Apply(g, PayBegin(id, prepared)))
  {
    hide LI.Inv, OriginsOrdered, RowOk, Journaled, SigningOk, Sealed, SessionOk, CompleteOk, CheckStorage, StorageUpper;
    if id in g.running && g.running[id].phase.Preparation? && g.lock.None? && Consistent(prepared) {
      assert TaskOk(g.world, id, g.running[id]);
      var upper := StorageUpper(prepared);
      if upper.None? || CheckStorage(g.world.ledger, g.now, id.approval, upper.value).Err? {
        FailKeeps(g, id, if upper.None? then NeedsRecovery
                         else ClassOf(CheckStorage(g.world.ledger, g.now, id.approval, upper.value).error), false);
      } else {
        Begun(g, id, prepared);
      }
    }
  }

  lemma Begun(g: Gateway, id: UploadId, prepared: Prepared)
    requires Inv(g)
    requires id in g.running && g.running[id].phase.Preparation? && g.lock.None? && Consistent(prepared)
    requires StorageUpper(prepared).Some? && CheckStorage(g.world.ledger, g.now, id.approval, StorageUpper(prepared).value).Ok?
    ensures Inv(Begin(g, id, prepared))
  {
    hide OriginsOrdered, RowOk, Journaled, SessionsOk, CompletesOk, CheckStorage, StorageUpper, Calls;
    var g' := Begin(g, id, prepared);
    assert TaskOk(g.world, id, g.running[id]);
    assert LI.UploadOk(g.world.ledger, id);
    hide LI.Inv;
    NothingSpent(g.world, id);
    CallsSum(prepared);
    assert Calls(prepared)[0..] == Calls(prepared);
    RoomFor(g.world.ledger, g.now, id.approval, StorageUpper(prepared).value);
    assert SigningOk(g.world, id, g.running[id].run, g'.running[id].phase);
    hide SigningOk, Sealed;
    assert id !in g.resumes by { NotLeaving(g, id); }
    Moved(g, g', id);
  }

  // -- Moves in memory --

  // The last call settled: every row of the upload is settled and the totals are its charges.
  lemma PayEndStep(g: Gateway, id: UploadId)
    requires Inv(g)
    ensures Inv(Apply(g, PayEnd(id)))
  {
    var g' := Apply(g, PayEnd(id));
    hide LI.Inv, OriginsOrdered, RowOk, Journaled, CompletesOk, Spent, BudgetOk, CallPaid;
    if g' != g {
      assert TaskOk(g.world, id, g.running[id]);
      assert Sealed(g.world, id, g.running[id].phase.paid);
      hide SigningOk, Sealed, WorldOk;
      Moved(g, g', id);
    }
  }

  lemma AbortStep(g: Gateway, id: UploadId, c: ErrorClass)
    requires Inv(g)
    ensures Inv(Apply(g, Abort(id, c)))
  {
    hide LI.Inv, WorldOk, TasksOk, CompletesOk;
    if Apply(g, Abort(id, c)) != g {
      FailKeeps(g, id, c, g.running[id].phase.Storing? && g.running[id].phase.resumed);
    }
  }

  lemma StoreCompleteStep(g: Gateway, id: UploadId)
    requires Inv(g)
    ensures Inv(Apply(g, StoreComplete(id)))
  {
    hide LI.Inv, OriginsOrdered, RowOk, Journaled, CompletesOk, Sealed, SigningOk;
    var g' := Apply(g, StoreComplete(id));
    if g' != g {
      assert TaskOk(g.world, id, g.running[id]);
      Moved(g, g', id);
    }
  }

  lemma {:induction false} StorePartialStep(g: Gateway, id: UploadId)
    requires Inv(g)
    ensures Inv(Apply(g, StorePartial(id)))
  {
    StorePartialIs(g, id);
    hide Apply;
    if id in g.running && g.running[id].phase.Storing? {
      RemoveOrSweepStep(g, SweepResumes);
      PartialKept(g.(resumes := Live(g.resumes, g.now)), id);
    }
  }

  // A partial result sweeps the sessions, and then keeps one more if there is room.
  lemma StorePartialIs(g: Gateway, id: UploadId)
    ensures Apply(g, SweepResumes) == g.(resumes := Live(g.resumes, g.now))
    ensures id in g.running && g.running[id].phase.Storing? ==>
      Apply(g, StorePartial(id)) == Retained(g.(resumes := Live(g.resumes, g.now)), id)
    ensures !(id in g.running && g.running[id].phase.Storing?) ==> Apply(g, StorePartial(id)) == g
  {
    hide Live;
  }

  lemma {:induction false} PartialKept(kept: Gateway, id: UploadId)
    requires Inv(kept) && id in kept.running && kept.running[id].phase.Storing?
    ensures Inv(Retained(kept, id))
  {
    hide LI.Inv, OriginsOrdered, RowOk, Journaled, CompletesOk, Sealed, SigningOk;
    NotLeaving(kept, id);
    if |kept.resumes| >= MAX_RESUMES {
      FailKeeps(kept, id, NeedsRecovery, kept.running[id].phase.resumed);
    } else {
      assert TaskOk(kept.world, id, kept.running[id]);
      Moved(kept, Retained(kept, id), id);
    }
  }

  lemma {:induction false} ResumeStep(g: Gateway, id: UploadId)
    requires Inv(g)
    ensures Inv(Apply(g, ResumeRequest(id)))
  {
    hide LI.Inv, OriginsOrdered, RowOk, Journaled, CompletesOk, Sealed, SigningOk;
    if id in g.resumes {
      assert SessionOk(g.world, id, g.resumes[id]);
    }
  }

  lemma RemoveOrSweepStep(g: Gateway, e: Event)
    requires Inv(g)
    requires e.RemoveStep? || e.SweepResumes? || e.Tick?
    ensures Inv(Apply(g, e))
  {
    hide LI.Inv, OriginsOrdered, RowOk, Journaled, CompletesOk, SessionOk, TaskOk;
  }
}
