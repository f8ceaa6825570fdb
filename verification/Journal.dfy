// The durable payment journal. Each method is one SQLite transaction (or one statement), run
// under the journal's process lock; each is proved to compute the function of `Ledger`.
module JournalStore {
  import opened Outcomes
  import opened Amounts
  import opened Contract
  import opened Ledger
  import L = Ledger
  import LedgerInvariant

  class Journal {
    const network: string
    const guard: bool
    var approvals: map<string, ApprovalRow>
    var leases: map<string, LeaseRow>
    var uploads: map<UploadId, UploadRow>
    var txs: seq<TxRow>

    function Tables(): Ledger
      reads this
    {
      Ledger(network, guard, approvals, leases, uploads, txs)
    }

    ghost predicate Valid()
      reads this
    {
      LedgerInvariant.Inv(Tables())
    }

    // Opens existing tables and runs the three recovery statements in order.
    constructor Open(disk: Ledger, network: string)
      requires LedgerInvariant.Inv(disk)
      ensures Valid()
      ensures Tables() == Initialize(disk, network)
    {
      hide LedgerInvariant.Inv;
      this.network := network;
      guard := disk.guard;
      approvals := disk.approvals;
      leases := disk.leases;
      uploads := disk.uploads;
      txs := disk.txs;
      new;
      // Unpaid preparation may be repeated; everything else in flight is paid or uncertain.
      uploads := MarkRetryable(txs, uploads);
      uploads := MarkRecovery(uploads);
      approvals := PauseApprovals(uploads, approvals);
      LedgerInvariant.InitializeKeeps(disk, network);
    }

    method Approve(now: int, approval: PaymentApproval) returns (r: Result<(), Failure>)
      requires Valid()
      modifies this`approvals
      ensures Valid()
      ensures var o := L.Approve(old(Tables()), now, approval); Tables() == o.Tables(old(Tables())) && r == o.Reply()
    {
      hide LedgerInvariant.Inv;
      LedgerInvariant.ApproveKeeps(Tables(), now, approval);
      if !approval.Validate(now, network) {
        return Err(InvalidApproval);
      }
      if approval.quoteId in approvals {
        if approvals[approval.quoteId].definition != approval {
          return Err(QuoteBound);
        }
      } else {
        approvals := approvals[approval.quoteId := ApprovalRow(approval, ApprovalState.Open, 0, 0)];
      }
      return Ok(());
    }

    // Revokes only an approval that never reserved a transaction.
    method CancelUnpaid(now: int, approval: string, key: string) returns (r: Result<bool, Failure>)
      requires Valid()
      modifies this`approvals
      ensures Valid()
      ensures var o := L.CancelUnpaid(old(Tables()), now, approval, key);
        Tables() == o.Tables(old(Tables())) && r == o.Reply()
    {
      hide LedgerInvariant.Inv;
      LedgerInvariant.CancelKeeps(Tables(), now, approval, key);
      if !HoldsLease(Tables(), now, approval, key) || guard {
        return Err(LeaseLost);
      }
      if HasTxFor(txs, approval) {
        return Ok(false);
      }
      if approval !in approvals {
        return Ok(false);
      }
      approvals := approvals[approval := approvals[approval].(state := CancelledUnpaid)];
      return Ok(true);
    }

    method Admit(now: int, id: UploadId, approval: string, sha256: string, size: nat, mode: string, key: string)
      returns (r: Result<bool, Failure>)
      requires Valid()
      modifies this`uploads
      ensures Valid()
      ensures var o := L.Admit(old(Tables()), now, id, approval, sha256, size, mode, key);
        Tables() == o.Tables(old(Tables())) && r == o.Reply()
    {
      hide LedgerInvariant.Inv;
      LedgerInvariant.AdmitKeeps(Tables(), now, id, approval, sha256, size, mode, key);
      if approval !in approvals {
        return Err(RowMissing);
      }
      var row := approvals[approval];
      var open := RequireOpen(row.state);
      if open.Err? {
        return Err(open.error);
      }
      if !row.definition.Validate(now, network) {
        return Err(InvalidApproval);
      }
      if !row.definition.Permits(sha256, size, mode) {
        return Err(ContentChanged);
      }
      if !HoldsLease(Tables(), now, approval, key) {
        return Err(LeaseLost);
      }
      if id !in uploads {
        uploads := uploads[id := UploadRow(approval, sha256, key, Preparing, None)];
        return Ok(true);
      }
      var upload := uploads[id];
      if upload.state == Retryable && upload.approval == approval && upload.sha256 == sha256 && !HasTxOf(txs, id) {
        uploads := uploads[id := upload.(state := Preparing, leaseKey := key)];
        return Ok(true);
      }
      return Ok(false);
    }

    // Worst-case costs are committed before anything is signed.
    method Reserve(now: int, t: Reservation) returns (r: Result<(), Failure>)
      requires Valid()
      requires t.upload in uploads ==> uploads[t.upload].approval == t.approval
      modifies this`approvals, this`uploads, this`txs
      ensures Valid()
      ensures var o := L.Reserve(old(Tables()), now, t); Tables() == o.Tables(old(Tables())) && r == o.Reply()
    {
      hide LedgerInvariant.Inv;
      LedgerInvariant.ReserveKeeps(Tables(), now, t);
      if guard {
        return Err(RestoreGuard);
      }
      if !ValidateExecution(Tables(), now, t.upload) {
        return Err(LeaseLost);
      }
      if t.approval !in approvals {
        return Err(RowMissing);
      }
      var row := approvals[t.approval];
      if !row.definition.Validate(now, network) {
        return Err(InvalidApproval);
      }
      var open := RequireOpen(row.state);
      if open.Err? {
        return Err(open.error);
      }
      var storage := CheckedReservation(row.reservedStorage, t.storageUpper, row.definition.StorageCap(), StorageCapExceeded);
      if storage.Err? {
        return Err(storage.error);
      }
      var gas := CheckedReservation(row.reservedGas, t.gasUpper, row.definition.GasCap(), GasCapExceeded);
      if gas.Err? {
        return Err(gas.error);
      }
      if Uncertain(txs, network) {
        return Err(UnresolvedTransaction);
      }
      if t.nonce >= NONCE_LIMIT {
        return Err(NonceTooLarge);
      }
      if FindById(txs, t.id).Some?
         || exists i :: 0 <= i < |txs| && txs[i].network == network && txs[i].nonce == t.nonce
      {
        return Err(ConstraintViolated);
      }
      txs := txs + [NewTx(Tables(), t)];
      approvals := approvals[t.approval := row.(reservedStorage := storage.value, reservedGas := gas.value)];
      uploads := uploads[t.upload := uploads[t.upload].(state := Paying)];
      return Ok(());
    }

    method RecordSigned(now: int, id: string, hash: string) returns (r: Result<(), Failure>)
      requires Valid()
      modifies this`txs
      ensures Valid()
      ensures var o := L.RecordSigned(old(Tables()), now, id, hash); Tables() == o.Tables(old(Tables())) && r == o.Reply()
    {
      hide LedgerInvariant.Inv;
      LedgerInvariant.RecordSignedKeeps(Tables(), now, id, hash);
      var found := FindById(txs, id);
      if found.None? {
        return Err(RowMissing);
      }
      var i := found.value;
      if !ValidateExecution(Tables(), now, txs[i].upload) {
        return Err(LeaseLost);
      }
      if txs[i].state != Reserved {
        return Err(IntentLost);
      }
      if FindByHash(txs, txs[i].network, hash).Some? {
        return Err(ConstraintViolated);
      }
      txs := txs[i := txs[i].(hash := Some(hash), state := Signed)];
      return Ok(());
    }

    method Settle(hash: string, storage: nat, gas: nat) returns (r: Result<(), Failure>)
      requires Valid()
      modifies this`approvals, this`txs
      ensures Valid()
      ensures var o := L.Settle(old(Tables()), hash, storage, gas); Tables() == o.Tables(old(Tables())) && r == o.Reply()
      ensures r != Err(InvalidReservation)
    {
      hide LedgerInvariant.Inv;
      LedgerInvariant.SettleKeeps(Tables(), hash, storage, gas);
      LedgerInvariant.SettleNeverUnderflows(Tables(), hash, storage, gas);
      var found := FindByHash(txs, network, hash);
      if found.None? {
        return Err(RowMissing);
      }
      var i := found.value;
      var t := txs[i];
      if t.state == Settled {
        return Ok(());
      }
      if !(storage <= t.storageReserved && gas <= t.gasReserved) {
        return Err(ReceiptExceedsReservation);
      }
      if t.approval !in approvals {
        return Err(RowMissing);
      }
      var row := approvals[t.approval];
      var unusedStorage, unusedGas := t.storageReserved - storage, t.gasReserved - gas;
      approvals := approvals[t.approval := row.(
        reservedStorage := row.reservedStorage - unusedStorage, reservedGas := row.reservedGas - unusedGas)];
      txs := txs[i := t.(state := Settled, charge := Some(Charge(storage, gas)))];
      return Ok(());
    }

    method Finish(id: UploadId, requested: UploadState, result: Option<Receipt>)
      requires Valid()
      requires requested in {Partial, Complete, ApprovalRequired, PaymentRecoveryRequired}
      modifies this`approvals, this`uploads
      ensures Valid()
      ensures Tables() == L.Finish(old(Tables()), id, requested, result)
    {
      hide LedgerInvariant.Inv;
      LedgerInvariant.FinishKeeps(Tables(), id, requested, result);
      var state := requested;
      if state == PaymentRecoveryRequired && !HasTxOf(txs, id) {
        state := Retryable;
      }
      if id in uploads {
        uploads := uploads[id := uploads[id].(state := state, result := result)];
        var a := uploads[id].approval;
        if state == PaymentRecoveryRequired && a in approvals {
          approvals := approvals[a := approvals[a].(state := Paused)];
        }
      }
    }

    method Activate(now: int, lease: PaymentLease) returns (r: Result<(), Failure>)
      requires Valid()
      modifies this`leases
      ensures Valid()
      ensures var o := L.Activate(old(Tables()), now, lease); Tables() == o.Tables(old(Tables())) && r == o.Reply()
    {
      hide LedgerInvariant.Inv;
      LedgerInvariant.ActivateKeeps(Tables(), now, lease);
      if !(lease.expiresAt > now && lease.expiresAt <= now + 3600 && lease.generation > 0
           && lease.jobId != "" && lease.owner != "")
      {
        return Err(InvalidLease);
      }
      var row := LeaseRow(lease.jobId, lease.owner, lease.generation, lease.expiresAt);
      if lease.quoteId in leases {
        var current := leases[lease.quoteId];
        var renewed := current.generation == row.generation && current.owner == row.owner && current.expiresAt > now;
        if current.jobId != row.jobId || !(renewed || current.generation < row.generation) {
          return Err(StaleLease);
        }
      } else if lease.quoteId !in approvals {
        return Err(ConstraintViolated);
      }
      leases := leases[lease.quoteId := row];
      return Ok(());
    }

    method CheckStorage(now: int, approval: string, upper: nat) returns (r: Result<(), Failure>)
      ensures r == L.CheckStorage(Tables(), now, approval, upper)
    {
      if approval !in approvals {
        return Err(RowMissing);
      }
      var row := approvals[approval];
      if !row.definition.Validate(now, network) {
        return Err(InvalidApproval);
      }
      var total := CheckedReservation(row.reservedStorage, upper, row.definition.StorageCap(), StorageCapExceeded);
      r := if total.Err? then Err(total.error) else Ok(());
    }
  }
}
