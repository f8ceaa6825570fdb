// What every journal transaction keeps, and what only ever moves one way.
module LedgerInvariant {
  import opened Outcomes
  import opened Amounts
  import opened Contract
  import opened Sums
  import opened Ledger

  function HeldStorageFor(approval: string): TxRow -> nat {
    (t: TxRow) => if t.approval == approval then t.HeldStorage() else 0
  }

  function HeldGasFor(approval: string): TxRow -> nat {
    (t: TxRow) => if t.approval == approval then t.HeldGas() else 0
  }

  // -- The invariant --

  // A row's hash appears when it is signed and its charge when it settles, within the reservation.
  ghost predicate RowShape(t: TxRow) {
    && (t.hash.Some? <==> t.state != Reserved)
    && (t.charge.Some? <==> t.state == Settled)
    && (t.charge.Some? ==> t.charge.value.storage <= t.storageReserved && t.charge.value.gas <= t.gasReserved)
  }

  // PRIMARY KEY(id), UNIQUE(network, nonce), UNIQUE(network, hash), and one signing stream a network.
  ghost predicate Independent(t: TxRow, u: TxRow) {
    && t.id != u.id
    && (t.network == u.network ==>
          && t.nonce != u.nonce
          && (t.hash.Some? ==> t.hash != u.hash)
          && !(t.Unresolved() && u.Unresolved()))
  }

  ghost predicate RowsIndependent(txs: seq<TxRow>) {
    forall i, j :: 0 <= i < j < |txs| ==> Independent(txs[i], txs[j])
  }

  // A transaction charges the approval its upload was admitted under, on that approval's network.
  ghost predicate Linked(l: Ledger, t: TxRow) {
    && t.upload in l.uploads
    && t.approval in l.approvals
    && l.uploads[t.upload].approval == t.approval
    && l.approvals[t.approval].definition.network == t.network
  }

  ghost predicate TxsOk(l: Ledger) {
    && RowsIndependent(l.txs)
    && (forall i :: 0 <= i < |l.txs| ==> RowShape(l.txs[i]) && Linked(l, l.txs[i]))
  }

  // Reserved totals are the sum over the approval's transactions of what each one holds.
  ghost predicate Conserved(txs: seq<TxRow>, approval: string, row: ApprovalRow) {
    && row.reservedStorage == Sum(txs, HeldStorageFor(approval))
    && row.reservedGas == Sum(txs, HeldGasFor(approval))
    && row.reservedStorage <= row.definition.StorageCap()
    && row.reservedGas <= row.definition.GasCap()
  }

  ghost predicate ApprovalOk(l: Ledger, approval: string)
    requires approval in l.approvals
  {
    var row := l.approvals[approval];
    && row.definition.quoteId == approval
    && Conserved(l.txs, approval, row)
    && (row.state == CancelledUnpaid ==> !HasTxFor(l.txs, approval))
    && (row.state == Paused ==> HasTxFor(l.txs, approval))
  }

  ghost predicate UploadOk(l: Ledger, id: UploadId)
    requires id in l.uploads
  {
    var row := l.uploads[id];
    && row.approval in l.approvals
    && (row.state in {Preparing, Retryable} ==> !HasTxOf(l.txs, id))
    && (row.state in {Paying, PaymentRecoveryRequired} ==> HasTxOf(l.txs, id))
  }

  ghost predicate ApprovalsOk(l: Ledger) {
    forall a :: a in l.approvals ==> ApprovalOk(l, a)
  }

  ghost predicate UploadsOk(l: Ledger) {
    forall u :: u in l.uploads ==> UploadOk(l, u)
  }

  ghost predicate Inv(l: Ledger) {
    && TxsOk(l)
    && ApprovalsOk(l)
    && UploadsOk(l)
    && l.leases.Keys <= l.approvals.Keys
  }

  // -- What only moves one way --

  ghost predicate RowEvolves(t: TxRow, u: TxRow) {
    && u == t.(hash := u.hash, state := u.state, charge := u.charge)
    && (t.hash.Some? ==> u.hash == t.hash)
    && (t.charge.Some? ==> u.charge == t.charge)
    && (t.state == Settled ==> u == t)
    && (t.state == Signed ==> u.state != Reserved)
  }

  ghost predicate LeaseEvolves(before: LeaseRow, after: LeaseRow) {
    && after.jobId == before.jobId
    && before.generation <= after.generation
    && (before.generation == after.generation ==> before.owner == after.owner)
  }

  ghost predicate TxsEvolve(before: seq<TxRow>, after: seq<TxRow>) {
    && |before| <= |after|
    && (forall i :: 0 <= i < |before| ==> RowEvolves(before[i], after[i]))
  }

  ghost predicate ApprovalsEvolve(before: map<string, ApprovalRow>, after: map<string, ApprovalRow>) {
    forall a :: a in before ==>
      && a in after
      && after[a].definition == before[a].definition
      && (before[a].state != Open ==> after[a].state == before[a].state)
  }

  ghost predicate LeasesEvolve(before: map<string, LeaseRow>, after: map<string, LeaseRow>) {
    forall a :: a in before ==> a in after && LeaseEvolves(before[a], after[a])
  }

  ghost predicate UploadsEvolve(before: map<UploadId, UploadRow>, after: map<UploadId, UploadRow>) {
    forall u :: u in before ==> u in after && after[u].approval == before[u].approval
  }

  ghost predicate Evolves(before: Ledger, after: Ledger) {
    && TxsEvolve(before.txs, after.txs)
    && ApprovalsEvolve(before.approvals, after.approvals)
    && LeasesEvolve(before.leases, after.leases)
    && UploadsEvolve(before.uploads, after.uploads)
    && before.guard == after.guard
  }

  lemma EvolvesTransitive(a: Ledger, b: Ledger, c: Ledger)
    requires Evolves(a, b) && Evolves(b, c)
    ensures Evolves(a, c)
  {
    forall i | 0 <= i < |a.txs| ensures RowEvolves(a.txs[i], c.txs[i]) {
      assert RowEvolves(a.txs[i], b.txs[i]) && RowEvolves(b.txs[i], c.txs[i]);
    }
    forall k | k in a.leases ensures k in c.leases && LeaseEvolves(a.leases[k], c.leases[k]) {
      assert LeaseEvolves(a.leases[k], b.leases[k]) && LeaseEvolves(b.leases[k], c.leases[k]);
    }
  }

  lemma DistinctRows(txs: seq<TxRow>, i: nat, j: nat)
    requires RowsIndependent(txs)
    requires i < |txs| && j < |txs|
    ensures i != j ==> txs[i].id != txs[j].id
    ensures i != j && txs[i].network == txs[j].network && txs[i].hash.Some? ==> txs[i].hash != txs[j].hash
  {
    if i < j {
      assert Independent(txs[i], txs[j]);
    } else if j < i {
      assert Independent(txs[j], txs[i]);
    }
  }

  lemma FoundByHash(txs: seq<TxRow>, i: nat)
    requires RowsIndependent(txs)
    requires i < |txs| && txs[i].hash.Some?
    ensures FindByHash(txs, txs[i].network, txs[i].hash.value) == Some(i)
  {
    var j := FindByHash(txs, txs[i].network, txs[i].hash.value);
    assert j.Some?;
    DistinctRows(txs, i, j.value);
  }

  lemma FoundById(txs: seq<TxRow>, i: nat)
    requires RowsIndependent(txs)
    requires i < |txs|
    ensures FindById(txs, txs[i].id) == Some(i)
  {
    var j := FindById(txs, txs[i].id);
    assert j.Some?;
    DistinctRows(txs, i, j.value);
  }

  // -- Framing --

  // A step that keeps every transaction row and every reserved total keeps Inv when the new
  // approval and upload states agree with the rows.
  lemma SameTxs(l: Ledger, m: Ledger)
    requires Inv(l)
    requires m.txs == l.txs
    requires forall a :: a in l.approvals ==> a in m.approvals && m.approvals[a].(state := l.approvals[a].state) == l.approvals[a]
    requires forall u :: u in l.uploads ==> u in m.uploads && m.uploads[u].approval == l.uploads[u].approval
    requires ApprovalsOk(m) && UploadsOk(m)
    requires m.leases.Keys <= m.approvals.Keys
    ensures Inv(m)
  {
    forall i | 0 <= i < |m.txs| ensures Linked(m, m.txs[i]) {
      assert Linked(l, l.txs[i]);
    }
  }

  lemma SameRows(l: Ledger, m: Ledger)
    requires Inv(l)
    requires m.txs == l.txs && m.approvals == l.approvals && m.uploads == l.uploads
    requires m.leases.Keys <= m.approvals.Keys
    ensures Inv(m)
  {
    forall a | a in m.approvals ensures ApprovalOk(m, a) {
      assert ApprovalOk(l, a);
    }
    forall u | u in m.uploads ensures UploadOk(m, u) {
      assert UploadOk(l, u);
    }
    SameTxs(l, m);
  }

  lemma UploadReplaced(l: Ledger, id: UploadId, row: UploadRow)
    requires Inv(l)
    requires row.approval in l.approvals
    requires id in l.uploads ==> l.uploads[id].approval == row.approval
    requires row.state in {Preparing, Retryable} ==> !HasTxOf(l.txs, id)
    requires row.state in {Paying, PaymentRecoveryRequired} ==> HasTxOf(l.txs, id)
    ensures Inv(l.(uploads := l.uploads[id := row]))
  {
    var m := l.(uploads := l.uploads[id := row]);
    forall a | a in m.approvals ensures ApprovalOk(m, a) {
      assert ApprovalOk(l, a);
    }
    forall u | u in m.uploads ensures UploadOk(m, u) {
      assert u != id ==> UploadOk(l, u);
    }
    SameTxs(l, m);
  }

  lemma ApprovalStateReplaced(l: Ledger, approval: string, state: ApprovalState)
    requires Inv(l)
    requires approval in l.approvals
    requires state == CancelledUnpaid ==> !HasTxFor(l.txs, approval)
    requires state == Paused ==> HasTxFor(l.txs, approval)
    ensures Inv(l.(approvals := l.approvals[approval := l.approvals[approval].(state := state)]))
  {
    var m := l.(approvals := l.approvals[approval := l.approvals[approval].(state := state)]);
    forall a | a in m.approvals ensures ApprovalOk(m, a) {
      assert ApprovalOk(l, a);
    }
    forall u | u in m.uploads ensures UploadOk(m, u) {
      assert UploadOk(l, u);
    }
    SameTxs(l, m);
  }

  lemma TxOfImpliesTxFor(l: Ledger, id: UploadId)
    requires Inv(l)
    requires id in l.uploads && HasTxOf(l.txs, id)
    ensures HasTxFor(l.txs, l.uploads[id].approval)
  {
    var i :| 0 <= i < |l.txs| && l.txs[i].upload == id;
    assert Linked(l, l.txs[i]);
  }

  lemma NoTxWithoutUpload(l: Ledger, id: UploadId)
    requires TxsOk(l)
    ensures id !in l.uploads ==> !HasTxOf(l.txs, id)
  {
    forall i | 0 <= i < |l.txs| ensures l.txs[i].upload in l.uploads {
      assert Linked(l, l.txs[i]);
    }
  }

  lemma EmptyLedger(network: string, guard: bool)
    ensures Inv(Ledger(network, guard, map[], map[], map[], []))
  {
  }

  // -- Each transaction --

  lemma InterruptedOk(l: Ledger, u: UploadId)
    requires Inv(l) && u in l.uploads
    ensures u in MarkRecovery(MarkRetryable(l.txs, l.uploads))
    ensures var row := MarkRecovery(MarkRetryable(l.txs, l.uploads))[u];
      && row.approval == l.uploads[u].approval
      && (row.state in {Preparing, Retryable} ==> !HasTxOf(l.txs, u))
      && (row.state in {Paying, PaymentRecoveryRequired} ==> HasTxOf(l.txs, u) && HasTxFor(l.txs, row.approval))
  {
    assert UploadOk(l, u);
    if HasTxOf(l.txs, u) {
      TxOfImpliesTxFor(l, u);
    }
  }

  lemma RecoveryHasTx(l: Ledger, network: string, a: string)
    requires Inv(l)
    ensures AwaitsRecovery(Initialize(l, network).uploads, a) ==> HasTxFor(l.txs, a)
  {
    var uploads := Initialize(l, network).uploads;
    if AwaitsRecovery(uploads, a) {
      var u :| u in uploads && uploads[u].approval == a && uploads[u].state == PaymentRecoveryRequired;
      InterruptedOk(l, u);
    }
  }

  lemma InitializeKeepsUploads(l: Ledger, network: string)
    requires Inv(l)
    ensures UploadsOk(Initialize(l, network))
  {
    var m := Initialize(l, network);
    forall u | u in m.uploads ensures UploadOk(m, u) {
      assert UploadOk(l, u);
      InterruptedOk(l, u);
    }
  }

  lemma InitializeKeepsApprovals(l: Ledger, network: string)
    requires Inv(l)
    ensures ApprovalsOk(Initialize(l, network))
  {
    hide MarkRetryable, MarkRecovery, AwaitsRecovery;
    var m := Initialize(l, network);
    forall a | a in m.approvals ensures ApprovalOk(m, a) {
      assert ApprovalOk(l, a);
      RecoveryHasTx(l, network, a);
    }
  }

  lemma {:induction false} InitializeKeeps(l: Ledger, network: string)
    requires Inv(l)
    ensures Inv(Initialize(l, network))
  {
    hide HasTxOf, HasTxFor, AwaitsRecovery;
    InitializeKeepsUploads(l, network);
    InitializeKeepsApprovals(l, network);
    SameTxs(l, Initialize(l, network));
  }

  // A restart changes states only, and a second restart changes nothing more.
  lemma InitializeIdempotent(l: Ledger, network: string)
    ensures var m := Initialize(l, network);
      && Initialize(m, network) == m
      && m.txs == l.txs
      && m.approvals.Keys == l.approvals.Keys && m.uploads.Keys == l.uploads.Keys && m.leases == l.leases
      && (forall a :: a in l.approvals ==> m.approvals[a].(state := l.approvals[a].state) == l.approvals[a])
      && (forall u :: u in l.uploads ==> m.uploads[u].(state := l.uploads[u].state) == l.uploads[u])
  {
    hide AwaitsRecovery, HasTxOf;
    var m := Initialize(l, network);
    assert MarkRecovery(MarkRetryable(l.txs, m.uploads)) == m.uploads;
    assert PauseApprovals(m.uploads, m.approvals) == m.approvals;
  }

  // A crash between the recovery statements is healed by the next start.
  lemma {:induction false} InitializeRestartable(l: Ledger, network: string)
    ensures Initialize(l.(uploads := MarkRetryable(l.txs, l.uploads)), network) == Initialize(l, network)
    ensures Initialize(l.(uploads := Initialize(l, network).uploads), network) == Initialize(l, network)
  {
    hide AwaitsRecovery, HasTxOf;
    var once := MarkRetryable(l.txs, l.uploads);
    assert MarkRetryable(l.txs, once) == once;
    assert MarkRecovery(MarkRetryable(l.txs, MarkRecovery(once))) == MarkRecovery(once);
  }

  lemma ApproveKeeps(l: Ledger, now: int, approval: PaymentApproval)
    requires Inv(l)
    ensures var m := Approve(l, now, approval).Tables(l); Inv(m)
  {
    var m := Approve(l, now, approval).Tables(l);
    var q := approval.quoteId;
    if m != l {
      forall i | 0 <= i < |l.txs| ensures l.txs[i].approval != q {
        assert Linked(l, l.txs[i]);
      }
      SumZero(l.txs, HeldStorageFor(q));
      SumZero(l.txs, HeldGasFor(q));
      forall a | a in m.approvals ensures ApprovalOk(m, a) {
        if a != q {
          assert ApprovalOk(l, a);
        }
      }
      forall u | u in m.uploads ensures UploadOk(m, u) {
        assert UploadOk(l, u);
      }
      SameTxs(l, m);
    }
  }

  lemma ActivateKeeps(l: Ledger, now: int, lease: PaymentLease)
    requires Inv(l)
    ensures var m := Activate(l, now, lease).Tables(l); Inv(m)
  {
    SameRows(l, Activate(l, now, lease).Tables(l));
  }

  lemma CancelKeeps(l: Ledger, now: int, approval: string, key: string)
    requires Inv(l)
    ensures var m := CancelUnpaid(l, now, approval, key).Tables(l); Inv(m)
  {
    if CancelUnpaid(l, now, approval, key) != Done(l, false) && CancelUnpaid(l, now, approval, key).Done? {
      ApprovalStateReplaced(l, approval, CancelledUnpaid);
    }
  }

  lemma {:induction false} AdmitKeeps(l: Ledger, now: int, id: UploadId, approval: string, sha256: string, size: nat, mode: string, key: string)
    requires Inv(l)
    ensures var m := Admit(l, now, id, approval, sha256, size, mode, key).Tables(l); Inv(m)
  {
    var m := Admit(l, now, id, approval, sha256, size, mode, key).Tables(l);
    if m != l {
      NoTxWithoutUpload(l, id);
      UploadReplaced(l, id, m.uploads[id]);
    }
  }

  lemma {:induction false} FinishKeeps(l: Ledger, id: UploadId, requested: UploadState, result: Option<Receipt>)
    requires Inv(l)
    requires requested in {Partial, Complete, ApprovalRequired, PaymentRecoveryRequired}
    ensures var m := Finish(l, id, requested, result); Inv(m)
  {
    if id in l.uploads {
      var m := Finish(l, id, requested, result);
      assert UploadOk(l, id);
      UploadReplaced(l, id, m.uploads[id]);
      if m.uploads[id].state == PaymentRecoveryRequired {
        TxOfImpliesTxFor(l, id);
        ApprovalStateReplaced(l.(uploads := m.uploads), l.uploads[id].approval, Paused);
      }
    }
  }

  // Appending a reservation adds exactly its bounds to the approval it charges.
  lemma ReserveSums(l: Ledger, t: TxRow, a: string)
    requires t.charge.None?
    ensures Sum(l.txs + [t], HeldStorageFor(a)) == Sum(l.txs, HeldStorageFor(a)) + (if t.approval == a then t.storageReserved else 0)
    ensures Sum(l.txs + [t], HeldGasFor(a)) == Sum(l.txs, HeldGasFor(a)) + (if t.approval == a then t.gasReserved else 0)
  {
    SumAppend(l.txs, t, HeldStorageFor(a));
    SumAppend(l.txs, t, HeldGasFor(a));
  }

  lemma ReserveKeepsTxs(l: Ledger, now: int, r: Reservation)
    requires TxsOk(l)
    requires r.upload in l.uploads ==> l.uploads[r.upload].approval == r.approval
    ensures TxsOk(Reserve(l, now, r).Tables(l))
  {
    var o := Reserve(l, now, r);
    if o.Done? {
      var m := o.tables;
      forall i, j | 0 <= i < j < |m.txs| ensures Independent(m.txs[i], m.txs[j]) {
        if j < |l.txs| {
          assert Independent(l.txs[i], l.txs[j]);
        }
      }
      forall i | 0 <= i < |m.txs| ensures RowShape(m.txs[i]) && Linked(m, m.txs[i]) {
        if i < |l.txs| {
          assert RowShape(l.txs[i]) && Linked(l, l.txs[i]);
        }
      }
    }
  }

  lemma ReserveKeepsApprovals(l: Ledger, now: int, r: Reservation)
    requires ApprovalsOk(l)
    ensures ApprovalsOk(Reserve(l, now, r).Tables(l))
  {
    var o := Reserve(l, now, r);
    if o.Done? {
      var m := o.tables;
      forall a | a in m.approvals ensures ApprovalOk(m, a) {
        assert ApprovalOk(l, a);
        ReserveSums(l, NewTx(l, r), a);
        HasTxAppended(l.txs, NewTx(l, r), a, r.upload);
      }
    }
  }

  lemma ReserveKeepsUploads(l: Ledger, now: int, r: Reservation)
    requires UploadsOk(l)
    ensures UploadsOk(Reserve(l, now, r).Tables(l))
  {
    var o := Reserve(l, now, r);
    if o.Done? {
      var m := o.tables;
      forall u | u in m.uploads ensures UploadOk(m, u) {
        assert UploadOk(l, u);
        HasTxAppended(l.txs, NewTx(l, r), r.approval, u);
      }
    }
  }

  // `reserve` trusts its caller to charge the approval the upload was admitted under.
  lemma {:induction false} ReserveKeeps(l: Ledger, now: int, r: Reservation)
    requires Inv(l)
    requires r.upload in l.uploads ==> l.uploads[r.upload].approval == r.approval
    ensures Inv(Reserve(l, now, r).Tables(l))
  {
    ReserveKeepsTxs(l, now, r);
    ReserveKeepsApprovals(l, now, r);
    ReserveKeepsUploads(l, now, r);
  }

  lemma HasTxAppended(txs: seq<TxRow>, t: TxRow, a: string, u: UploadId)
    ensures HasTxFor(txs + [t], a) <==> HasTxFor(txs, a) || t.approval == a
    ensures HasTxOf(txs + [t], u) <==> HasTxOf(txs, u) || t.upload == u
  {
    var all := txs + [t];
    if t.approval == a {
      assert all[|txs|].approval == a;
    }
    if t.upload == u {
      assert all[|txs|].upload == u;
    }
    if HasTxFor(txs, a) {
      var i :| 0 <= i < |txs| && txs[i].approval == a;
      assert all[i].approval == a;
    }
    if HasTxOf(txs, u) {
      var i :| 0 <= i < |txs| && txs[i].upload == u;
      assert all[i].upload == u;
    }
  }

  lemma HasTxUpdated(txs: seq<TxRow>, i: nat, t: TxRow, a: string, u: UploadId)
    requires i < |txs| && t.approval == txs[i].approval && t.upload == txs[i].upload
    ensures HasTxFor(txs[i := t], a) <==> HasTxFor(txs, a)
    ensures HasTxOf(txs[i := t], u) <==> HasTxOf(txs, u)
  {
    var changed := txs[i := t];
    assert forall k :: 0 <= k < |txs| ==> changed[k].approval == txs[k].approval && changed[k].upload == txs[k].upload;
    if HasTxFor(txs, a) {
      var k :| 0 <= k < |txs| && txs[k].approval == a;
      assert changed[k].approval == a;
    }
    if HasTxOf(txs, u) {
      var k :| 0 <= k < |txs| && txs[k].upload == u;
      assert changed[k].upload == u;
    }
  }

  // Replacing row i by a later version of itself keeps what the rows say about each other.
  lemma RowReplaced(l: Ledger, m: Ledger, i: nat, t: TxRow)
    requires TxsOk(l)
    requires i < |l.txs| && m.txs == l.txs[i := t]
    requires RowEvolves(l.txs[i], t) && RowShape(t)
    requires t.hash != l.txs[i].hash ==> forall k :: 0 <= k < |l.txs| ==> !(l.txs[k].hash == t.hash && l.txs[k].network == t.network)
    requires forall a :: a in l.approvals ==> a in m.approvals && m.approvals[a].definition == l.approvals[a].definition
    requires m.uploads == l.uploads
    ensures TxsOk(m)
  {
    forall j, k | 0 <= j < k < |m.txs| ensures Independent(m.txs[j], m.txs[k]) {
      assert Independent(l.txs[j], l.txs[k]);
    }
    forall j | 0 <= j < |m.txs| ensures RowShape(m.txs[j]) && Linked(m, m.txs[j]) {
      assert Linked(l, l.txs[j]);
    }
  }

  lemma RowReplacedUploads(l: Ledger, m: Ledger, i: nat, t: TxRow)
    requires UploadsOk(l)
    requires i < |l.txs| && m.txs == l.txs[i := t]
    requires t.approval == l.txs[i].approval && t.upload == l.txs[i].upload
    requires l.approvals.Keys <= m.approvals.Keys
    requires m.uploads == l.uploads
    ensures UploadsOk(m)
  {
    forall u | u in m.uploads ensures UploadOk(m, u) {
      assert UploadOk(l, u);
      HasTxUpdated(l.txs, i, t, t.approval, u);
    }
  }

  // A replaced row moves each total by the difference of what the two versions hold.
  lemma RowReplacedApproval(l: Ledger, m: Ledger, i: nat, t: TxRow, a: string)
    requires i < |l.txs| && m.txs == l.txs[i := t]
    requires t.approval == l.txs[i].approval && t.upload == l.txs[i].upload
    requires a in l.approvals && ApprovalOk(l, a)
    requires a in m.approvals
    requires m.approvals[a] == l.approvals[a].(reservedStorage := m.approvals[a].reservedStorage, reservedGas := m.approvals[a].reservedGas)
    requires a != t.approval ==> m.approvals[a] == l.approvals[a]
    requires a == t.approval ==>
      && m.approvals[a].reservedStorage + l.txs[i].HeldStorage() == l.approvals[a].reservedStorage + t.HeldStorage()
      && m.approvals[a].reservedGas + l.txs[i].HeldGas() == l.approvals[a].reservedGas + t.HeldGas()
    requires t.HeldStorage() <= l.txs[i].HeldStorage() && t.HeldGas() <= l.txs[i].HeldGas()
    ensures ApprovalOk(m, a)
  {
    SumUpdate(l.txs, i, t, HeldStorageFor(a));
    SumUpdate(l.txs, i, t, HeldGasFor(a));
    HasTxUpdated(l.txs, i, t, a, t.upload);
  }

  lemma RecordSignedKeeps(l: Ledger, now: int, id: string, hash: string)
    requires Inv(l)
    ensures var m := RecordSigned(l, now, id, hash).Tables(l); Inv(m)
  {
    var o := RecordSigned(l, now, id, hash);
    if o.Done? {
      var m := o.tables;
      var i := FindById(l.txs, id).value;
      var t := m.txs[i];
      assert RowShape(l.txs[i]);
      RowReplaced(l, m, i, t);
      RowReplacedUploads(l, m, i, t);
      forall a | a in m.approvals ensures ApprovalOk(m, a) {
        assert ApprovalOk(l, a);
        RowReplacedApproval(l, m, i, t, a);
      }
    }
  }

  // Settling never underflows a reserved total, so its two checked subtractions cannot fail.
  lemma SettleNeverUnderflows(l: Ledger, hash: string, storage: nat, gas: nat)
    requires Inv(l)
    ensures Settle(l, hash, storage, gas) != Failed(InvalidReservation)
  {
    var found := FindByHash(l.txs, l.network, hash);
    if found.Some? {
      var i := found.value;
      var a := l.txs[i].approval;
      assert Linked(l, l.txs[i]) && ApprovalOk(l, a) && RowShape(l.txs[i]);
      SumAtLeast(l.txs, i, HeldStorageFor(a));
      SumAtLeast(l.txs, i, HeldGasFor(a));
    }
  }

  lemma {:induction false} SettleKeeps(l: Ledger, hash: string, storage: nat, gas: nat)
    requires Inv(l)
    ensures var m := Settle(l, hash, storage, gas).Tables(l); Inv(m)
  {
    var o := Settle(l, hash, storage, gas);
    if o.Done? && o.tables != l {
      var m := o.tables;
      var i := FindByHash(l.txs, l.network, hash).value;
      var t := m.txs[i];
      assert RowShape(l.txs[i]);
      RowReplaced(l, m, i, t);
      RowReplacedUploads(l, m, i, t);
      forall a | a in m.approvals ensures ApprovalOk(m, a) {
        assert ApprovalOk(l, a);
        RowReplacedApproval(l, m, i, t, a);
      }
    }
  }

  // Replaying a settlement, with whatever amounts, changes nothing.
  lemma SettleReplay(l: Ledger, hash: string, storage: nat, gas: nat, storage': nat, gas': nat)
    requires Inv(l)
    requires Settle(l, hash, storage, gas).Done?
    ensures var m := Settle(l, hash, storage, gas).tables; Settle(m, hash, storage', gas') == Done(m, ())
  {
    SettleKeeps(l, hash, storage, gas);
    FoundByHash(Settle(l, hash, storage, gas).tables.txs, FindByHash(l.txs, l.network, hash).value);
  }

  // -- Each transaction only moves forward --

  lemma {:induction false} InitializeApprovalsEvolve(l: Ledger, network: string)
    requires Inv(l)
    ensures ApprovalsEvolve(l.approvals, Initialize(l, network).approvals)
  {
    forall a | a in l.approvals && l.approvals[a].state != Open
      ensures Initialize(l, network).approvals[a].state == l.approvals[a].state
    {
      assert ApprovalOk(l, a);
      RecoveryHasTx(l, network, a);
    }
  }

  lemma {:induction false} InitializeEvolves(l: Ledger, network: string)
    requires Inv(l)
    ensures Evolves(l, Initialize(l, network))
  {
    InitializeApprovalsEvolve(l, network);
  }

  lemma ApprovalStateEvolves(approvals: map<string, ApprovalRow>, a: string, state: ApprovalState)
    requires a in approvals && approvals[a].state in {Open, state}
    ensures ApprovalsEvolve(approvals, approvals[a := approvals[a].(state := state)])
  {
  }

  lemma ApproveEvolves(l: Ledger, now: int, approval: PaymentApproval)
    ensures Evolves(l, Approve(l, now, approval).Tables(l))
  {
  }

  lemma ActivateEvolves(l: Ledger, now: int, lease: PaymentLease)
    ensures Evolves(l, Activate(l, now, lease).Tables(l))
  {
  }

  lemma CancelUnpaidEvolves(l: Ledger, now: int, approval: string, key: string)
    requires Inv(l)
    ensures Evolves(l, CancelUnpaid(l, now, approval, key).Tables(l))
  {
    var o := CancelUnpaid(l, now, approval, key);
    if o.Done? && o.value {
      assert ApprovalOk(l, approval);
      ApprovalStateEvolves(l.approvals, approval, CancelledUnpaid);
    }
  }

  lemma AdmitEvolves(l: Ledger, now: int, id: UploadId, approval: string, sha256: string, size: nat, mode: string, key: string)
    ensures Evolves(l, Admit(l, now, id, approval, sha256, size, mode, key).Tables(l))
  {
  }

  lemma ReserveEvolves(l: Ledger, now: int, r: Reservation)
    ensures Evolves(l, Reserve(l, now, r).Tables(l))
  {
  }

  lemma RowUpdateEvolves(txs: seq<TxRow>, i: nat, t: TxRow)
    requires i < |txs| && RowEvolves(txs[i], t)
    ensures TxsEvolve(txs, txs[i := t])
  {
  }

  lemma RecordSignedEvolves(l: Ledger, now: int, id: string, hash: string)
    requires Inv(l)
    ensures Evolves(l, RecordSigned(l, now, id, hash).Tables(l))
  {
    var o := RecordSigned(l, now, id, hash);
    if o.Done? {
      var i := FindById(l.txs, id).value;
      assert RowShape(l.txs[i]);
      RowUpdateEvolves(l.txs, i, o.tables.txs[i]);
    }
  }

  lemma {:induction false} SettleEvolves(l: Ledger, hash: string, storage: nat, gas: nat)
    requires Inv(l)
    ensures Evolves(l, Settle(l, hash, storage, gas).Tables(l))
  {
    var o := Settle(l, hash, storage, gas);
    if o.Done? && o.tables != l {
      var i := FindByHash(l.txs, l.network, hash).value;
      assert RowShape(l.txs[i]);
      RowUpdateEvolves(l.txs, i, o.tables.txs[i]);
    }
  }

  lemma FinishMoves(l: Ledger, id: UploadId, requested: UploadState, result: Option<Receipt>)
    requires id in l.uploads && HasTxOf(l.txs, id) && l.uploads[id].approval in l.approvals
      ==> l.approvals[l.uploads[id].approval].state in {Open, Paused}
    ensures Evolves(l, Finish(l, id, requested, result))
  {
  }

  lemma {:induction false} FinishEvolves(l: Ledger, id: UploadId, requested: UploadState, result: Option<Receipt>)
    requires Inv(l)
    ensures Evolves(l, Finish(l, id, requested, result))
  {
    if id in l.uploads && HasTxOf(l.txs, id) {
      assert UploadOk(l, id) && ApprovalOk(l, l.uploads[id].approval);
      TxOfImpliesTxFor(l, id);
    }
    FinishMoves(l, id, requested, result);
  }

  // -- Fencing by lease generation --

  // Key material (job, owner, generation) the approval's lease has moved past, or let expire.
  ghost predicate Superseded(l: Ledger, now: int, approval: string, job: string, owner: string, generation: nat) {
    && approval in l.leases
    && var row := l.leases[approval];
       && row.jobId == job
       && (generation < row.generation
           || (generation == row.generation && (owner != row.owner || row.expiresAt <= now)))
  }

  lemma SupersededHoldsNothing(l: Ledger, now: int, approval: string, job: string, owner: string, generation: nat)
    requires Superseded(l, now, approval, job, owner, generation)
    ensures !HoldsLease(l, now, approval, LeaseKey(job, owner, generation))
  {
    var row := l.leases[approval];
    if HoldsLease(l, now, approval, LeaseKey(job, owner, generation)) {
      LeaseKeyInjective(job, row.owner, row.generation, owner, generation);
    }
  }

  predicate AdmittedUnder(l: Ledger, upload: UploadId, approval: string, key: string) {
    upload in l.uploads && l.uploads[upload].approval == approval && l.uploads[upload].leaseKey == key
  }

  // Under a superseded key nothing is admitted, reserved, signed or cancelled.
  lemma SupersededCannotAct(l: Ledger, now: int, approval: string, job: string, owner: string, generation: nat)
    requires Inv(l)
    requires Superseded(l, now, approval, job, owner, generation)
    ensures var key := LeaseKey(job, owner, generation);
      && CancelUnpaid(l, now, approval, key).Failed?
      && (forall id, sha, size: nat, mode :: Admit(l, now, id, approval, sha, size, mode, key).Failed?)
      && (forall r: Reservation | AdmittedUnder(l, r.upload, approval, key) :: Reserve(l, now, r).Failed?)
      && (forall i, hash | 0 <= i < |l.txs| && AdmittedUnder(l, l.txs[i].upload, approval, key) ::
            RecordSigned(l, now, l.txs[i].id, hash).Failed?)
  {
    SupersededHoldsNothing(l, now, approval, job, owner, generation);
    var key := LeaseKey(job, owner, generation);
    forall i, hash | 0 <= i < |l.txs| && AdmittedUnder(l, l.txs[i].upload, approval, key)
      ensures RecordSigned(l, now, l.txs[i].id, hash).Failed?
    {
      FoundById(l.txs, i);
    }
  }
}
