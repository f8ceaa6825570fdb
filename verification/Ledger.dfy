// The payment journal as a value: its tables, and for every statement or transaction of the
// journal the function from the old tables to the new ones.
module Ledger {
  import opened Outcomes
  import opened Amounts
  import opened Contract

  datatype ApprovalState = Open | Paused | CancelledUnpaid

  datatype ApprovalRow = ApprovalRow(
    definition: PaymentApproval,
    state: ApprovalState,
    reservedStorage: nat,
    reservedGas: nat)

  datatype LeaseRow = LeaseRow(jobId: string, owner: string, generation: nat, expiresAt: int) {
    function Key(): string {
      LeaseKey(jobId, owner, generation)
    }
  }

  datatype UploadState =
    Preparing | Retryable | Paying | Partial | Complete | ApprovalRequired | PaymentRecoveryRequired

  datatype Receipt = Receipt(storage: nat, gas: nat)

  datatype UploadRow = UploadRow(
    approval: string,
    sha256: string,
    leaseKey: string,
    state: UploadState,
    result: Option<Receipt>)

  datatype TxState = Reserved | Signed | Settled

  datatype Charge = Charge(storage: nat, gas: nat)

  // `charge` is a history variable: the amounts `settle` was called with. No branch reads it.
  datatype TxRow = TxRow(
    id: string,
    hash: Option<string>,
    upload: UploadId,
    approval: string,
    network: string,
    nonce: nat,
    storageReserved: nat,
    gasReserved: nat,
    state: TxState,
    charge: Option<Charge>)
  {
    predicate Unresolved() {
      state != Settled
    }

    function HeldStorage(): nat {
      if charge.Some? then charge.value.storage else storageReserved
    }

    function HeldGas(): nat {
      if charge.Some? then charge.value.gas else gasReserved
    }
  }

  // `guard` is the restore_reconciliation_required control; only the restore script writes it.
  // `network` is the identity the process was opened with.
  datatype Ledger = Ledger(
    network: string,
    guard: bool,
    approvals: map<string, ApprovalRow>,
    leases: map<string, LeaseRow>,
    uploads: map<UploadId, UploadRow>,
    txs: seq<TxRow>)

  datatype Failure =
    | InvalidApproval
    | QuoteBound            // the quote ID binds another definition
    | RowMissing
    | ConstraintViolated    // PRIMARY KEY, UNIQUE or FOREIGN KEY
    | ApprovalCancelled
    | ApprovalPaused
    | ContentChanged
    | LeaseLost
    | RestoreGuard
    | AmountOverflow
    | StorageCapExceeded
    | GasCapExceeded
    | UnresolvedTransaction
    | NonceTooLarge
    | IntentLost
    | ReceiptExceedsReservation
    | InvalidReservation
    | InvalidLease
    | StaleLease

  // A transaction that fails rolls back, so only success carries new tables.
  datatype Outcome<+T> = Done(tables: Ledger, value: T) | Failed(error: Failure) {
    function Tables(before: Ledger): Ledger {
      if Done? then tables else before
    }

    function Reply(): Result<T, Failure> {
      if Done? then Ok(value) else Err(error)
    }
  }

  const NONCE_LIMIT := 0x8000_0000_0000_0000

  // -- Queries --

  predicate HasTxFor(txs: seq<TxRow>, approval: string) {
    exists i :: 0 <= i < |txs| && txs[i].approval == approval
  }

  predicate HasTxOf(txs: seq<TxRow>, upload: UploadId) {
    exists i :: 0 <= i < |txs| && txs[i].upload == upload
  }

  predicate Uncertain(txs: seq<TxRow>, network: string) {
    exists i :: 0 <= i < |txs| && txs[i].network == network && txs[i].Unresolved()
  }

  predicate HasStorageIntent(l: Ledger, upload: UploadId) {
    exists i :: 0 <= i < |l.txs| && l.txs[i].upload == upload && Digits(l.txs[i].storageReserved) != "0"
  }

  predicate SigningEnabled(l: Ledger) {
    !(l.guard || Uncertain(l.txs, l.network))
  }

  predicate HoldsLease(l: Ledger, now: int, approval: string, key: string) {
    approval in l.leases && l.leases[approval].Key() == key && l.leases[approval].expiresAt > now
  }

  predicate ValidateExecution(l: Ledger, now: int, upload: UploadId) {
    upload in l.uploads && HoldsLease(l, now, l.uploads[upload].approval, l.uploads[upload].leaseKey)
  }

  function FindById(txs: seq<TxRow>, id: string): (r: Option<nat>)
    ensures r.Some? ==> r.value < |txs| && txs[r.value].id == id
    ensures r.None? ==> forall i :: 0 <= i < |txs| ==> txs[i].id != id
  {
    if |txs| == 0 then None
    else if txs[|txs| - 1].id == id then Some(|txs| - 1)
    else FindById(txs[..|txs| - 1], id)
  }

  function FindByHash(txs: seq<TxRow>, network: string, hash: string): (r: Option<nat>)
    ensures r.Some? ==> r.value < |txs| && txs[r.value].hash == Some(hash) && txs[r.value].network == network
    ensures r.None? ==> forall i :: 0 <= i < |txs| ==> !(txs[i].hash == Some(hash) && txs[i].network == network)
  {
    if |txs| == 0 then None
    else if txs[|txs| - 1].hash == Some(hash) && txs[|txs| - 1].network == network then Some(|txs| - 1)
    else FindByHash(txs[..|txs| - 1], network, hash)
  }

  function RequireOpen(state: ApprovalState): Result<(), Failure> {
    match state
    case CancelledUnpaid => Err(ApprovalCancelled)
    case Paused => Err(ApprovalPaused)
    case Open => Ok(())
  }

  function CheckedReservation(used: nat, additional: nat, cap: nat, exceeded: Failure): Result<nat, Failure> {
    if used + additional >= U128_LIMIT then Err(AmountOverflow)
    else if used + additional > cap then Err(exceeded)
    else Ok(used + additional)
  }

  // -- Statements and transactions --

  // The three recovery statements of `initialize`, each committed on its own.
  function RetryRow(txs: seq<TxRow>, id: UploadId, row: UploadRow): UploadRow {
    if row.state in {Preparing, Partial} && !HasTxOf(txs, id) then row.(state := Retryable) else row
  }

  function MarkRetryable(txs: seq<TxRow>, uploads: map<UploadId, UploadRow>): map<UploadId, UploadRow> {
    map u | u in uploads :: RetryRow(txs, u, uploads[u])
  }

  function RecoverRow(row: UploadRow): UploadRow {
    if row.state in {Preparing, Paying, Partial} then row.(state := PaymentRecoveryRequired) else row
  }

  function MarkRecovery(uploads: map<UploadId, UploadRow>): map<UploadId, UploadRow> {
    map u | u in uploads :: RecoverRow(uploads[u])
  }

  predicate AwaitsRecovery(uploads: map<UploadId, UploadRow>, approval: string) {
    exists u :: u in uploads && uploads[u].approval == approval && uploads[u].state == PaymentRecoveryRequired
  }

  function PauseRow(uploads: map<UploadId, UploadRow>, id: string, row: ApprovalRow): ApprovalRow {
    if AwaitsRecovery(uploads, id) then row.(state := Paused) else row
  }

  function PauseApprovals(uploads: map<UploadId, UploadRow>, approvals: map<string, ApprovalRow>): map<string, ApprovalRow> {
    map a | a in approvals :: PauseRow(uploads, a, approvals[a])
  }

  function Initialize(l: Ledger, network: string): Ledger {
    var uploads := MarkRecovery(MarkRetryable(l.txs, l.uploads));
    l.(network := network, uploads := uploads, approvals := PauseApprovals(uploads, l.approvals))
  }

  function Approve(l: Ledger, now: int, approval: PaymentApproval): Outcome<()> {
    if !approval.Validate(now, l.network) then Failed(InvalidApproval)
    else if approval.quoteId in l.approvals then
      if l.approvals[approval.quoteId].definition == approval then Done(l, ()) else Failed(QuoteBound)
    else Done(l.(approvals := l.approvals[approval.quoteId := ApprovalRow(approval, Open, 0, 0)]), ())
  }

  function Activate(l: Ledger, now: int, lease: PaymentLease): Outcome<()> {
    if !(lease.expiresAt > now && lease.expiresAt <= now + 3600 && lease.generation > 0
         && lease.jobId != "" && lease.owner != "") then Failed(InvalidLease)
    else
      var row := LeaseRow(lease.jobId, lease.owner, lease.generation, lease.expiresAt);
      if lease.quoteId in l.leases then
        var current := l.leases[lease.quoteId];
        if current.jobId == row.jobId
           && ((current.generation == row.generation && current.owner == row.owner && current.expiresAt > now)
               || current.generation < row.generation)
        then Done(l.(leases := l.leases[lease.quoteId := row]), ())
        else Failed(StaleLease)
      else if lease.quoteId !in l.approvals then Failed(ConstraintViolated)
      else Done(l.(leases := l.leases[lease.quoteId := row]), ())
  }

  function CancelUnpaid(l: Ledger, now: int, approval: string, key: string): Outcome<bool> {
    if !HoldsLease(l, now, approval, key) || l.guard then Failed(LeaseLost)
    else if HasTxFor(l.txs, approval) then Done(l, false)
    else if approval !in l.approvals then Done(l, false)
    else Done(l.(approvals := l.approvals[approval := l.approvals[approval].(state := CancelledUnpaid)]), true)
  }

  function Admit(l: Ledger, now: int, id: UploadId, approval: string, sha256: string, size: nat, mode: string,
                 key: string): Outcome<bool>
  {
    if approval !in l.approvals then Failed(RowMissing)
    else
      var row := l.approvals[approval];
      if RequireOpen(row.state).Err? then Failed(RequireOpen(row.state).error)
      else if !row.definition.Validate(now, l.network) then Failed(InvalidApproval)
      else if !row.definition.Permits(sha256, size, mode) then Failed(ContentChanged)
      else if !HoldsLease(l, now, approval, key) then Failed(LeaseLost)
      else if id !in l.uploads then
        Done(l.(uploads := l.uploads[id := UploadRow(approval, sha256, key, Preparing, None)]), true)
      else
        var upload := l.uploads[id];
        if upload.state == Retryable && upload.approval == approval && upload.sha256 == sha256
           && !HasTxOf(l.txs, id)
        then Done(l.(uploads := l.uploads[id := upload.(state := Preparing, leaseKey := key)]), true)
        else Done(l, false)
  }

  datatype Reservation = Reservation(
    approval: string,
    upload: UploadId,
    id: string,
    nonce: nat,
    storageUpper: nat,
    gasUpper: nat)

  function NewTx(l: Ledger, r: Reservation): TxRow {
    TxRow(r.id, None, r.upload, r.approval, l.network, r.nonce, r.storageUpper, r.gasUpper, Reserved, None)
  }

  function Reserve(l: Ledger, now: int, r: Reservation): Outcome<()> {
    if l.guard then Failed(RestoreGuard)
    else if !ValidateExecution(l, now, r.upload) then Failed(LeaseLost)
    else if r.approval !in l.approvals then Failed(RowMissing)
    else
      var row := l.approvals[r.approval];
      if !row.definition.Validate(now, l.network) then Failed(InvalidApproval)
      else if RequireOpen(row.state).Err? then Failed(RequireOpen(row.state).error)
      else
        var storage := CheckedReservation(row.reservedStorage, r.storageUpper, row.definition.StorageCap(), StorageCapExceeded);
        var gas := CheckedReservation(row.reservedGas, r.gasUpper, row.definition.GasCap(), GasCapExceeded);
        if storage.Err? then Failed(storage.error)
        else if gas.Err? then Failed(gas.error)
        else if Uncertain(l.txs, l.network) then Failed(UnresolvedTransaction)
        else if r.nonce >= NONCE_LIMIT then Failed(NonceTooLarge)
        else if FindById(l.txs, r.id).Some?
             || (exists i :: 0 <= i < |l.txs| && l.txs[i].network == l.network && l.txs[i].nonce == r.nonce)
        then Failed(ConstraintViolated)
        else Done(l.(
          txs := l.txs + [NewTx(l, r)],
          approvals := l.approvals[r.approval := row.(reservedStorage := storage.value, reservedGas := gas.value)],
          uploads := l.uploads[r.upload := l.uploads[r.upload].(state := Paying)]), ())
  }

  function RecordSigned(l: Ledger, now: int, id: string, hash: string): Outcome<()> {
    var found := FindById(l.txs, id);
    if found.None? then Failed(RowMissing)
    else
      var i := found.value;
      if !ValidateExecution(l, now, l.txs[i].upload) then Failed(LeaseLost)
      else if l.txs[i].state != Reserved then Failed(IntentLost)
      else if FindByHash(l.txs, l.txs[i].network, hash).Some? then Failed(ConstraintViolated)
      else Done(l.(txs := l.txs[i := l.txs[i].(hash := Some(hash), state := Signed)]), ())
  }

  function Settle(l: Ledger, hash: string, storage: nat, gas: nat): Outcome<()> {
    var found := FindByHash(l.txs, l.network, hash);
    if found.None? then Failed(RowMissing)
    else
      var i := found.value;
      var t := l.txs[i];
      if t.state == Settled then Done(l, ())
      else if !(storage <= t.storageReserved && gas <= t.gasReserved) then Failed(ReceiptExceedsReservation)
      else if t.approval !in l.approvals then Failed(RowMissing)
      else
        var row := l.approvals[t.approval];
        if row.reservedStorage < t.storageReserved - storage || row.reservedGas < t.gasReserved - gas
        then Failed(InvalidReservation)
        else Done(l.(
          approvals := l.approvals[t.approval := row.(
            reservedStorage := row.reservedStorage - (t.storageReserved - storage),
            reservedGas := row.reservedGas - (t.gasReserved - gas))],
          txs := l.txs[i := t.(state := Settled, charge := Some(Charge(storage, gas)))]), ())
  }

  function Finish(l: Ledger, id: UploadId, requested: UploadState, result: Option<Receipt>): Ledger {
    var state := if requested == PaymentRecoveryRequired && !HasTxOf(l.txs, id) then Retryable else requested;
    if id !in l.uploads then l
    else
      var upload := l.uploads[id];
      var uploads := l.uploads[id := upload.(state := state, result := result)];
      if state == PaymentRecoveryRequired && upload.approval in l.approvals then
        l.(uploads := uploads,
           approvals := l.approvals[upload.approval := l.approvals[upload.approval].(state := Paused)])
      else l.(uploads := uploads)
  }

  function CheckStorage(l: Ledger, now: int, approval: string, upper: nat): Result<(), Failure> {
    if approval !in l.approvals then Err(RowMissing)
    else
      var row := l.approvals[approval];
      if !row.definition.Validate(now, l.network) then Err(InvalidApproval)
      else
        var total := CheckedReservation(row.reservedStorage, upper, row.definition.StorageCap(), StorageCapExceeded);
        if total.Err? then Err(total.error) else Ok(())
  }
}
