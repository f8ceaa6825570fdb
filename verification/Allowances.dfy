// The payment token beside the gateway: what the payment contract may still take from the wallet. A
// token approval replaces the allowance of its network, and a payment is taken out of it or reverts.
module Allowances {
  import opened Outcomes
  import opened Amounts
  import opened Contract
  import opened Sums
  import opened Ledger
  import opened Signer
  import opened Gateway
  import opened GatewayInvariant
  import opened GatewaySteps
  import opened GatewaySigning
  import AL = ApprovalLife
  import GT = GatewayTheorems
  import LI = LedgerInvariant

  // `left`: the allowance of each network, whatever it was before.
  datatype Purse = Purse(g: Gateway, left: map<string, nat>)

  function Left(left: map<string, nat>, network: string): nat {
    if network in left then left[network] else 0
  }

  predicate Takes(c: Call, m: Mined) {
    m.success && !c.TokenApproval?
  }

  // A payment the allowance does not cover cannot succeed.
  predicate Honoured(s: Purse, i: nat, m: Mined) {
    && i < |s.g.world.ledger.txs| && i < |s.g.world.origins|
    && (Takes(s.g.world.origins[i].call, m) ==> m.storage <= Left(s.left, s.g.world.ledger.txs[i].network))
  }

  function LeftAfter(s: Purse, i: nat, m: Mined): map<string, nat>
    requires Honoured(s, i, m)
  {
    var network, call := s.g.world.ledger.txs[i].network, s.g.world.origins[i].call;
    if Takes(call, m) then s.left[network := Left(s.left, network) - m.storage]
    else if m.success then s.left[network := call.amount]
    else s.left
  }

  function Step(s: Purse, e: Event): Purse {
    if !e.MineStep? then s.(g := Apply(s.g, e))
    else if Honoured(s, e.i, e.outcome) && Apply(s.g, e) != s.g then Purse(Apply(s.g, e), LeftAfter(s, e.i, e.outcome))
    else s
  }

  function Runs(s: Purse, events: seq<Event>): Purse {
    if |events| == 0 then s else Step(Runs(s, events[..|events| - 1]), events[|events| - 1])
  }

  // The events that happen: all but the payments the token refuses.
  function Taken(s: Purse, events: seq<Event>): seq<Event> {
    if |events| == 0 then []
    else
      var front, last := events[..|events| - 1], events[|events| - 1];
      if Step(Runs(s, front), last).g == Runs(s, front).g then Taken(s, front) else Taken(s, front) + [last]
  }

  // So every theorem of the gateway holds of these runs.
  lemma {:induction false} PurseRunIsGatewayRun(s: Purse, events: seq<Event>)
    ensures Runs(s, events).g == Run(s.g, Taken(s, events))
  {
    hide Apply, Honoured, LeftAfter;
    if |events| > 0 {
      var front, last := events[..|events| - 1], events[|events| - 1];
      PurseRunIsGatewayRun(s, front);
      assert (Taken(s, front) + [last])[..|Taken(s, front)|] == Taken(s, front);
    }
  }

  // -- The invariant --

  // What the chain moved to the vault for row i.
  function MovedAt(w: World, i: nat): nat
    requires i < |w.ledger.txs|
  {
    if w.ledger.txs[i].hash.Some? && RefOf(w.ledger.txs[i]) in w.mined then w.mined[RefOf(w.ledger.txs[i])].storage else 0
  }

  predicate MinedAt(w: World, i: nat)
    requires i < |w.ledger.txs|
  {
    w.ledger.txs[i].hash.Some? && RefOf(w.ledger.txs[i]) in w.mined && w.mined[RefOf(w.ledger.txs[i])].success
  }

  // Row k is the allowance of the run that reserved row i.
  ghost predicate Covers(w: World, k: nat, i: nat) {
    && k < |w.ledger.txs| == |w.origins| && i < |w.ledger.txs| && k != i
    && w.ledger.txs[k].upload == w.ledger.txs[i].upload && w.origins[k].call.TokenApproval?
  }

  // While row i is unresolved: what is left for its network, and what it took, stay within what its
  // approval and its run's allowance still had.
  ghost predicate RowFunds(w: World, left: map<string, nat>, k: nat, i: nat) {
    Covers(w, k, i) && w.ledger.txs[i].Unresolved() ==>
      var t := w.ledger.txs[i];
      && t.approval in w.ledger.approvals
      && w.ledger.approvals[t.approval].reservedStorage + Left(left, t.network) + MovedAt(w, i)
           <= w.ledger.approvals[t.approval].definition.StorageCap() + t.storageReserved
      && Spent(w, t.upload).storage + Left(left, t.network) + MovedAt(w, i) <= w.origins[k].call.amount
  }

  ghost predicate RowsFunds(w: World, left: map<string, nat>) {
    forall k, i :: 0 <= k < |w.ledger.txs| && 0 <= i < |w.ledger.txs| ==> RowFunds(w, left, k, i)
  }

  // Nothing is settled beyond the allowance, and only the first call of a run is one.
  ghost predicate SpentFunds(w: World) {
    |w.origins| == |w.ledger.txs| &&
    forall k :: 0 <= k < |w.ledger.txs| && w.origins[k].call.TokenApproval? ==>
      w.origins[k].step == 0 && Spent(w, w.ledger.txs[k].upload).storage <= w.origins[k].call.amount
  }

  ghost predicate OthersSettled(w: World, at: Option<nat>) {
    forall i :: 0 <= i < |w.ledger.txs| && w.ledger.txs[i].network == w.ledger.network && at != Some(i) ==> w.ledger.txs[i].state == Settled
  }

  // What the current row has already taken.
  function CurrentTook(w: World, s: Stage): nat {
    if s.Idle? || s.i >= |w.ledger.txs| then 0 else MovedAt(w, s.i)
  }

  ghost predicate AllowancePaid(w: World, left: map<string, nat>, u: UploadId, p: Phase)
    requires p.Signing? && p.calls != [] && p.calls[0].TokenApproval? && 0 < p.next <= |p.calls|
  {
    && Left(left, w.ledger.network) + CurrentTook(w, p.stage) + p.paid.storage == p.calls[0].amount
    && p.paid.storage + Sum(p.calls[p.next..], UpperOf()) <= p.calls[0].amount
    && (p.stage.Idle? ==>
          && u.approval in w.ledger.approvals
          && w.ledger.approvals[u.approval].reservedStorage + Left(left, w.ledger.network)
               <= w.ledger.approvals[u.approval].definition.StorageCap())
  }

  // A run of `pay`: the network's other rows are settled, and past its allowance what is left is the
  // allowance less what the run has paid.
  ghost predicate TaskFunds(w: World, left: map<string, nat>, u: UploadId, p: Phase)
    requires p.Signing?
  {
    && Covered(p.calls) && p.next <= |p.calls|
    && (p.next > 0 || !p.stage.Idle? ==> OthersSettled(w, Current(p.stage)))
    && (p.next == 0 ==> p.paid.storage == 0)
    && (p.calls != [] && p.calls[0].TokenApproval? ==>
          && (p.next > 0 ==> AllowancePaid(w, left, u, p))
          && (p.next == 0 && !p.stage.Idle? && p.stage.i < |w.ledger.txs| && MinedAt(w, p.stage.i) ==>
                Left(left, w.ledger.network) == p.calls[0].amount))
  }

  ghost predicate TasksFunds(g: Gateway, left: map<string, nat>) {
    forall u :: u in g.running && g.running[u].phase.Signing? ==> TaskFunds(g.world, left, u, g.running[u].phase)
  }

  ghost predicate FundsOk(s: Purse) {
    && Inv(s.g)
    && RowsFunds(s.g.world, s.left)
    && SpentFunds(s.g.world)
    && TasksFunds(s.g, s.left)
  }

  lemma StartFunds(network: string, guard: bool, now: int, left: map<string, nat>)
    ensures FundsOk(Purse(Start(network, guard, now), left))
  {
    hide Inv;
    StartOk(network, guard, now);
  }

  // -- Steps that move no money --

  ghost predicate SameMoney(w: World, v: World) {
    && |v.ledger.txs| == |w.ledger.txs| == |w.origins| && v.origins == w.origins
    && (forall i :: 0 <= i < |w.ledger.txs| ==>
          && v.ledger.txs[i] == w.ledger.txs[i].(hash := v.ledger.txs[i].hash, state := v.ledger.txs[i].state)
          && (v.ledger.txs[i].state == Settled <==> w.ledger.txs[i].state == Settled)
          && MovedAt(v, i) == MovedAt(w, i) && MinedAt(v, i) == MinedAt(w, i))
    && (forall a :: a in w.ledger.approvals ==>
          && a in v.ledger.approvals
          && v.ledger.approvals[a].definition == w.ledger.approvals[a].definition
          && v.ledger.approvals[a].reservedStorage == w.ledger.approvals[a].reservedStorage)
  }

  lemma SameSpent(w: World, v: World, u: UploadId)
    requires SameMoney(w, v)
    ensures Spent(v, u).storage == Spent(w, u).storage
  {
    SumPrefixSame(w.ledger.txs, v.ledger.txs, SpentStorage(u));
  }

  lemma SameRowsFunds(w: World, v: World, left: map<string, nat>)
    requires SameMoney(w, v) && RowsFunds(w, left) && SpentFunds(w)
    ensures RowsFunds(v, left) && SpentFunds(v)
  {
    forall k, i | 0 <= k < |v.ledger.txs| && 0 <= i < |v.ledger.txs| ensures RowFunds(v, left, k, i) {
      assert RowFunds(w, left, k, i);
      SameSpent(w, v, w.ledger.txs[i].upload);
    }
    forall k | 0 <= k < |v.ledger.txs| && v.origins[k].call.TokenApproval?
      ensures Spent(v, v.ledger.txs[k].upload).storage <= v.origins[k].call.amount
    {
      SameSpent(w, v, w.ledger.txs[k].upload);
    }
  }

  // The task is still at the same call.
  predicate SameCall(p: Phase, q: Phase) {
    && p.Signing? && q.Signing?
    && q.calls == p.calls && q.next == p.next && q.paid == p.paid && Current(q.stage) == Current(p.stage)
  }

  predicate JustBegun(q: Phase) {
    q.Signing? && q.next == 0 && q.stage.Idle? && q.paid == Receipt(0, 0)
  }

  lemma SameTaskFunds(w: World, v: World, left: map<string, nat>, u: UploadId, p: Phase, q: Phase)
    requires SameMoney(w, v) && v.ledger.network == w.ledger.network
    requires SameCall(p, q) && TaskFunds(w, left, u, p)
    ensures TaskFunds(v, left, u, q)
  {
  }

  // Nothing moved; every run of `pay` is where it was, or has just begun.
  ghost predicate Still(g: Gateway, h: Gateway) {
    && SameMoney(g.world, h.world)
    && (forall u :: u in h.running && h.running[u].phase.Signing? ==>
          || (u in g.running && SameCall(g.running[u].phase, h.running[u].phase) && h.world.ledger.network == g.world.ledger.network)
          || (JustBegun(h.running[u].phase) && Covered(h.running[u].phase.calls)))
  }

  lemma {:induction false} StillFunds(s: Purse, t: Purse)
    requires FundsOk(s) && Inv(t.g) && t.left == s.left && Still(s.g, t.g)
    ensures FundsOk(t)
  {
    hide Inv, RowsFunds, SpentFunds, SameMoney, Covered, TaskFunds;
    SameRowsFunds(s.g.world, t.g.world, s.left);
    forall u | u in t.g.running && t.g.running[u].phase.Signing? ensures TaskFunds(t.g.world, t.left, u, t.g.running[u].phase) {
      if JustBegun(t.g.running[u].phase) && Covered(t.g.running[u].phase.calls) {
        BegunFunds(t.g.world, t.left, u, t.g.running[u].phase);
      } else {
        SameTaskFunds(s.g.world, t.g.world, s.left, u, s.g.running[u].phase, t.g.running[u].phase);
      }
    }
  }

  lemma BegunFunds(w: World, left: map<string, nat>, u: UploadId, p: Phase)
    requires JustBegun(p) && Covered(p.calls)
    ensures TaskFunds(w, left, u, p)
  {
  }

  // Requests, restarts and steps of tasks outside `pay` touch no row, no reserved total and no run.
  ghost predicate SameReserved(l: Ledger, m: Ledger) {
    && m.txs == l.txs
    && (forall a :: a in l.approvals ==>
          && a in m.approvals
          && m.approvals[a].definition == l.approvals[a].definition
          && m.approvals[a].reservedStorage == l.approvals[a].reservedStorage)
  }

  lemma RequestsReserveNothing(l: Ledger, now: int, a: PaymentApproval, lease: PaymentLease, quote: string, key: string)
    ensures SameReserved(l, Approve(l, now, a).Tables(l)) && Approve(l, now, a).Tables(l).network == l.network
    ensures SameReserved(l, Activate(l, now, lease).Tables(l)) && Activate(l, now, lease).Tables(l).network == l.network
    ensures SameReserved(l, CancelUnpaid(l, now, quote, key).Tables(l)) && CancelUnpaid(l, now, quote, key).Tables(l).network == l.network
  {
    hide PaymentApproval.Validate, HoldsLease, HasTxFor;
  }

  lemma EndsReserveNothing(l: Ledger, id: UploadId, requested: UploadState, result: Option<Receipt>, network: string)
    ensures SameReserved(l, Finish(l, id, requested, result)) && Finish(l, id, requested, result).network == l.network
    ensures SameReserved(l, Initialize(l, network))
  {
    hide HasTxOf, AwaitsRecovery, MarkRecovery, MarkRetryable;
  }

  lemma {:induction false} QuietLedger(g: Gateway, e: Event)
    requires !e.ReserveStep? && !e.SignStep? && !e.SettleStep? && !e.MineStep?
    ensures var w, v := g.world, Apply(g, e).world;
      && SameReserved(w.ledger, v.ledger) && v.origins == w.origins && v.mined == w.mined
      && (!e.Restart? ==> v.ledger.network == w.ledger.network)
  {
    hide Approve, Activate, CancelUnpaid, Admit, DoReserve, DoSign, DoSettle, Finish, Initialize, CheckStorage, StorageUpper, Calls,
         Consistent, ChainAllows, Live, FinalState, HasStorageIntent;
    var l := g.world.ledger;
    var nobody := PaymentApproval("", ContentDigest("", []), "", 0, "", "", []);
    var nothing := PaymentLease("", "", "", 0, 0);
    match e {
      case ApproveRequest(a) => RequestsReserveNothing(l, g.now, a, nothing, "", "");
      case ActivateRequest(lease) => RequestsReserveNothing(l, g.now, nobody, lease, "", "");
      case CancelRequest(q, key) => RequestsReserveNothing(l, g.now, nobody, nothing, q, key);
      case UploadRequest(q, sha, size, mode, key, _) => AdmittedRow(l, g.now, UploadId(q, sha, mode), q, sha, size, mode, key);
      case FinishStep(id, _) =>
        if id in g.running && g.running[id].phase.Succeeding? {
          EndsReserveNothing(l, id, Complete, Some(g.running[id].phase.receipt), "");
        } else if id in g.running && g.running[id].phase.Failing? {
          EndsReserveNothing(l, id, FinalState(g, id, g.running[id].phase), None, "");
        }
      case LoseCompletion(id, _) =>
        if id in g.running && g.running[id].phase.Succeeding? {
          EndsReserveNothing(l, id, Complete, Some(g.running[id].phase.receipt), "");
        }
      case Restart(network) => EndsReserveNothing(l, UploadId("", "", ""), Complete, None, network);
      case _ =>
    }
  }

  lemma QuietRuns(g: Gateway, e: Event, u: UploadId)
    requires !e.ReserveStep? && !e.SignStep? && !e.SettleStep? && !e.MineStep? && !e.PayBegin?
    ensures var h := Apply(g, e);
      u in h.running && h.running[u].phase.Signing? ==> u in g.running && SameCall(g.running[u].phase, h.running[u].phase) && !e.Restart?
  {
    hide Approve, Activate, CancelUnpaid, Admit, Reserve, RecordSigned, Settle, Finish, Initialize, CheckStorage, StorageUpper,
         SettledStorage, ChainAllows, Consistent, Calls, Upper, Live, HasStorageIntent, FinalState;
  }

  lemma BeginRuns(g: Gateway, id: UploadId, prepared: Prepared, u: UploadId)
    ensures var h := Apply(g, PayBegin(id, prepared));
      u in h.running && h.running[u].phase.Signing? ==>
        || (u in g.running && SameCall(g.running[u].phase, h.running[u].phase))
        || (JustBegun(h.running[u].phase) && Consistent(prepared) && StorageUpper(prepared).Some? && h.running[u].phase.calls == Calls(prepared))
  {
    hide CheckStorage, StorageUpper, Consistent, Calls;
  }

  lemma SameWorldMoney(w: World, v: World)
    requires SameReserved(w.ledger, v.ledger) && v.origins == w.origins && v.mined == w.mined && |w.origins| == |w.ledger.txs|
    ensures SameMoney(w, v)
  {
  }

  lemma {:induction false} QuietStill(g: Gateway, e: Event)
    requires Inv(g)
    requires !e.ReserveStep? && !e.SignStep? && !e.SettleStep? && !e.MineStep?
    ensures Still(g, Apply(g, e))
  {
    hide Apply, LI.Inv, SameMoney, SameReserved, Covered, SameCall, Calls, Consistent, StorageUpper;
    var h := Apply(g, e);
    QuietLedger(g, e);
    SameWorldMoney(g.world, h.world);
    hide Inv;
    forall u | u in h.running && h.running[u].phase.Signing?
      ensures (u in g.running && SameCall(g.running[u].phase, h.running[u].phase) && h.world.ledger.network == g.world.ledger.network)
        || (JustBegun(h.running[u].phase) && Covered(h.running[u].phase.calls))
    {
      if e.PayBegin? {
        BeginRuns(g, e.id, e.prepared, u);
        if Consistent(e.prepared) && StorageUpper(e.prepared).Some? {
          AllowanceCoversCalls(e.prepared);
        }
      } else {
        QuietRuns(g, e, u);
      }
    }
  }

  lemma {:induction false} FailStill(g: Gateway, id: UploadId, c: ErrorClass, afterResume: bool)
    requires |g.world.origins| == |g.world.ledger.txs| && id in g.running
    ensures Still(g, Fail(g, id, c, afterResume))
  {
  }

  lemma RowMoved(w: World, v: World, i: nat, j: nat, t: TxRow)
    requires i < |w.ledger.txs| && j < |w.ledger.txs| && v == w.(ledger := v.ledger) && v.ledger.txs == w.ledger.txs[i := t]
    requires w.ledger.txs[i].hash.None? && t == w.ledger.txs[i].(hash := t.hash, state := Signed)
    requires t.hash.Some? && RefOf(t) !in w.mined && w.ledger.txs[i].state == Reserved
    ensures v.ledger.txs[j] == w.ledger.txs[j].(hash := v.ledger.txs[j].hash, state := v.ledger.txs[j].state)
    ensures v.ledger.txs[j].state == Settled <==> w.ledger.txs[j].state == Settled
    ensures MovedAt(v, j) == MovedAt(w, j) && MinedAt(v, j) == MinedAt(w, j)
  {
  }

  // New signed bytes have moved nothing yet.
  lemma {:induction false} SignedStill(g: Gateway, id: UploadId, hash: string)
    requires Inv(g) && AtCall(g, id) && g.running[id].phase.stage.Intended? && g.running[id].phase.stage.i < |g.world.ledger.txs|
    requires RecordSigned(g.world.ledger, g.now, g.world.ledger.txs[g.running[id].phase.stage.i].id, hash).Done?
    ensures Still(g, DoSign(g, id, g.running[id].phase.stage.i, hash))
  {
    hide Inv, LI.Inv, RecordSigned, SigningOk, WorldOk, MovedAt, MinedAt, LI.RowsIndependent;
    var w, i := g.world, g.running[id].phase.stage.i;
    var h := DoSign(g, id, i, hash);
    SigningTask(g, id);
    Parts(g);
    LedgerRow(w.ledger, i);
    SignShape(w.ledger, g.now, i, hash);
    FreshHash(w, w.ledger.txs[i].network, hash);
    forall j | 0 <= j < |w.ledger.txs|
      ensures h.world.ledger.txs[j] == w.ledger.txs[j].(hash := h.world.ledger.txs[j].hash, state := h.world.ledger.txs[j].state)
      ensures h.world.ledger.txs[j].state == Settled <==> w.ledger.txs[j].state == Settled
      ensures MovedAt(h.world, j) == MovedAt(w, j) && MinedAt(h.world, j) == MinedAt(w, j)
    {
      RowMoved(w, h.world, i, j, h.world.ledger.txs[i]);
    }
  }

  lemma OriginsMatch(g: Gateway)
    requires Inv(g)
    ensures |g.world.origins| == |g.world.ledger.txs|
  {
    hide LI.Inv, OriginsOrdered, RowOk, Journaled, TasksOk, SessionsOk, CompletesOk;
  }

  lemma {:induction false} SignFunds(s: Purse, id: UploadId, hash: string)
    requires FundsOk(s)
    ensures FundsOk(Step(s, SignStep(id, hash)))
  {
    hide Inv, DoSign, Fail, RecordSigned, RowsFunds, SpentFunds, TasksFunds, Still;
    var g := s.g;
    OriginsMatch(g);
    StepKeeps(g, SignStep(id, hash));
    if AtCall(g, id) && g.running[id].phase.stage.Intended? && g.running[id].phase.stage.i < |g.world.ledger.txs| {
      var o := RecordSigned(g.world.ledger, g.now, g.world.ledger.txs[g.running[id].phase.stage.i].id, hash);
      if o.Done? {
        SignedStill(g, id, hash);
      } else {
        SignFails(g, id, hash);
        FailStill(g, id, ClassOf(o.error), false);
      }
      StillFunds(s, Step(s, SignStep(id, hash)));
    }
  }

  lemma SignFails(g: Gateway, id: UploadId, hash: string)
    requires AtCall(g, id) && g.running[id].phase.stage.Intended? && g.running[id].phase.stage.i < |g.world.ledger.txs|
    ensures var o := RecordSigned(g.world.ledger, g.now, g.world.ledger.txs[g.running[id].phase.stage.i].id, hash);
      o.Failed? ==> Apply(g, SignStep(id, hash)) == Fail(g, id, ClassOf(o.error), false)
  {
    hide RecordSigned, Fail;
  }

  // -- Reserving --

  // The rows of a run are its calls.
  lemma {:induction false} RowsAreCalls(w: World, u: UploadId, run: nat, p: Phase, k: nat)
    requires |w.origins| == |w.ledger.txs| && OriginsOrdered(w)
    requires p.Signing? && SigningOk(w, u, run, p)
    requires k < |w.ledger.txs| && w.ledger.txs[k].upload == u
    ensures w.origins[k].step < |p.calls| && w.origins[k].call == p.calls[w.origins[k].step]
  {
    hide StageOk, BudgetOk, Spent;
    var step := w.origins[k].step;
    if Current(p.stage) == Some(k) {
      StageRow(w, u, run, p);
    } else {
      assert CallPaid(w, u, Origin(run, step, p.calls[step]), p.hashes[step]);
      var i :| PaidRow(w, i, u, Origin(run, step, p.calls[step]), p.hashes[step]);
      assert i == k;
    }
  }

  // What a reservation finds: the network's rows settled, and the approval's room.
  lemma ReserveFinds(l: Ledger, now: int, r: Reservation)
    ensures Reserve(l, now, r).Done? ==> forall i :: 0 <= i < |l.txs| && l.txs[i].network == l.network ==> l.txs[i].state == Settled
  {
  }

  // A row's approval is of the row's network.
  lemma RowNetworkOf(l: Ledger, i: nat)
    requires LI.Inv(l) && i < |l.txs|
    ensures l.txs[i].approval in l.approvals && l.approvals[l.txs[i].approval].definition.network == l.txs[i].network
    ensures l.txs[i].upload in l.uploads && l.uploads[l.txs[i].upload].approval == l.txs[i].approval
  {
    assert LI.Linked(l, l.txs[i]);
  }

  lemma SpentPrefix(w: World, v: World, t: TxRow, u: UploadId)
    requires v.ledger.txs == w.ledger.txs + [t] && t.charge.None?
    ensures Spent(v, u).storage == Spent(w, u).storage
  {
    SumAppend(w.ledger.txs, t, SpentStorage(u));
  }

  ghost predicate NewRow(g: Gateway, h: Gateway, id: UploadId, r: Reservation) {
    && AtCall(g, id) && g.running[id].phase.stage.Idle?
    && var l, p := g.world.ledger, g.running[id].phase;
       && r.upload == id && r.approval == id.approval && r.storageUpper == Upper(p.calls[p.next])
       && r.approval in l.approvals && l.approvals[r.approval].definition.network == l.network
       && h.world.ledger.txs == l.txs + [NewTx(l, r)] && h.world.ledger.network == l.network
       && |g.world.origins| == |l.txs|
       && h.world.origins == g.world.origins + [Origin(g.running[id].run, p.next, p.calls[p.next])]
       && h.world.mined == g.world.mined
       && r.approval in h.world.ledger.approvals
       && h.world.ledger.approvals == l.approvals[r.approval := h.world.ledger.approvals[r.approval]]
       && h.world.ledger.approvals[r.approval].definition == l.approvals[r.approval].definition
       && h.world.ledger.approvals[r.approval].reservedStorage == l.approvals[r.approval].reservedStorage + r.storageUpper
       && h.running == g.running[id := g.running[id].(phase := p.(stage := Intended(|l.txs|)))]
       && (forall i :: 0 <= i < |l.txs| && l.txs[i].network == l.network ==> l.txs[i].state == Settled)
  }

  lemma {:induction false} ReserveAdds(g: Gateway, id: UploadId, tx: string, nonce: nat, gasUpper: nat)
    requires Inv(g) && AtCall(g, id) && g.running[id].phase.stage.Idle?
    requires Reserve(g.world.ledger, g.now, NextReservation(g, id, tx, nonce, gasUpper)).Done?
    ensures NewRow(g, DoReserve(g, id, tx, nonce, gasUpper), id, NextReservation(g, id, tx, nonce, gasUpper))
  {
    hide Inv, Reserve;
    var r := NextReservation(g, id, tx, nonce, gasUpper);
    OriginsMatch(g);
    ReserveShape(g.world.ledger, g.now, r);
    ReserveFinds(g.world.ledger, g.now, r);
  }

  // A run past its first call under an allowance, between two calls.
  lemma {:induction false} AllowanceRow(s: Purse, id: UploadId, k: nat)
    requires FundsOk(s) && AtCall(s.g, id) && s.g.running[id].phase.stage.Idle?
    requires k < |s.g.world.ledger.txs| == |s.g.world.origins|
    requires s.g.world.ledger.txs[k].upload == id && s.g.world.origins[k].call.TokenApproval?
    ensures var p := s.g.running[id].phase;
      && p.next > 0 && p.calls[0] == s.g.world.origins[k].call
      && AllowancePaid(s.g.world, s.left, id, p)
      && Spent(s.g.world, id).storage == p.paid.storage
  {
    var w, p, run := s.g.world, s.g.running[id].phase, s.g.running[id].run;
    SigningTask(s.g, id);
    Parts(s.g);
    hide Inv, RowOk, Journaled, RowsFunds, SpentFunds, LI.Inv, StageOk, BudgetOk, AllowancePaid, Spent;
    RowsAreCalls(w, id, run, p, k);
    PriorRows(w, id, run, p);
    assert TaskFunds(w, s.left, id, p);
  }

  lemma {:induction false} NewRowFunds(s: Purse, h: Gateway, id: UploadId, r: Reservation, k: nat, i: nat)
    requires FundsOk(s) && NewRow(s.g, h, id, r)
    requires k < |h.world.ledger.txs| && i < |h.world.ledger.txs|
    ensures RowFunds(h.world, s.left, k, i)
  {
    hide Inv, TaskFunds, SpentFunds, RowsFunds, LI.Inv, WorldOk, Spent;
    var w, v, n := s.g.world, h.world, |s.g.world.ledger.txs|;
    Parts(s.g);
    if Covers(v, k, i) && v.ledger.txs[i].Unresolved() {
      SpentPrefix(w, v, NewTx(w.ledger, r), v.ledger.txs[i].upload);
      if i == n {
        AllowanceRow(s, id, k);
      } else {
        RowNetworkOf(w.ledger, i);
        OldRow(s, id, r, k, i);
      }
    }
  }

  // An older unresolved row is of another network, hence of another approval and upload.
  lemma {:induction false} OldRow(s: Purse, id: UploadId, r: Reservation, k: nat, i: nat)
    requires FundsOk(s) && id in s.g.running && s.g.running[id].phase.Signing? && r.approval == id.approval
    requires r.approval in s.g.world.ledger.approvals && s.g.world.ledger.approvals[r.approval].definition.network == s.g.world.ledger.network
    requires i < |s.g.world.ledger.txs| && s.g.world.ledger.txs[i].Unresolved()
    requires s.g.world.ledger.txs[i].network == s.g.world.ledger.network ==> s.g.world.ledger.txs[i].state == Settled
    ensures s.g.world.ledger.txs[i].upload != id && s.g.world.ledger.txs[i].approval != r.approval
    ensures k < |s.g.world.ledger.txs| ==> RowFunds(s.g.world, s.left, k, i)
  {
    hide TaskFunds, SpentFunds, LI.Inv, SigningOk, RowFunds;
    Parts(s.g);
    SigningTask(s.g, id);
    hide Inv;
    RowNetworkOf(s.g.world.ledger, i);
  }

  // Before its first call a run has spent nothing.
  lemma {:induction false} FirstCall(s: Purse, id: UploadId)
    requires FundsOk(s) && AtCall(s.g, id)
    ensures var p := s.g.running[id].phase;
      && TaskFunds(s.g.world, s.left, id, p)
      && (p.calls[p.next].TokenApproval? ==> p.next == 0 && Spent(s.g.world, id).storage == 0)
  {
    hide Inv, RowsFunds, SpentFunds, LI.Inv, WorldOk, StageOk, BudgetOk, Spent, AllowancePaid, OthersSettled, RowsOfRun, CallPaid;
    SigningTask(s.g, id);
  }

  lemma RunningCall(g: Gateway, h: Gateway, id: UploadId, r: Reservation)
    requires NewRow(g, h, id, r)
    ensures AtCall(g, id) && h.world.origins == g.world.origins + [Origin(g.running[id].run, g.running[id].phase.next, g.running[id].phase.calls[g.running[id].phase.next])]
    ensures h.world.ledger.txs == g.world.ledger.txs + [NewTx(g.world.ledger, r)] && |g.world.origins| == |g.world.ledger.txs| && r.upload == id
  {
  }

  lemma FundsInv(s: Purse)
    requires FundsOk(s)
    ensures Inv(s.g)
  {
    hide Inv;
  }

  lemma {:induction false} NewRowSpent(s: Purse, h: Gateway, id: UploadId, r: Reservation, k: nat)
    requires FundsOk(s) && NewRow(s.g, h, id, r)
    requires k < |h.world.ledger.txs| && h.world.origins[k].call.TokenApproval?
    ensures h.world.origins[k].step == 0 && Spent(h.world, h.world.ledger.txs[k].upload).storage <= h.world.origins[k].call.amount
  {
    hide Inv, RowsFunds, TasksFunds, TaskFunds, Spent, LI.Inv, NextReservation, AllowancePaid, OthersSettled, Covered, AtCall;
    RunningCall(s.g, h, id, r);
    FirstCall(s, id);
    SpentPrefix(s.g.world, h.world, NewTx(s.g.world.ledger, r), h.world.ledger.txs[k].upload);
  }

  lemma {:induction false} NewRowsSpent(s: Purse, h: Gateway, id: UploadId, r: Reservation)
    requires FundsOk(s) && NewRow(s.g, h, id, r)
    ensures SpentFunds(h.world)
  {
    forall k | 0 <= k < |h.world.ledger.txs| && h.world.origins[k].call.TokenApproval?
      ensures h.world.origins[k].step == 0
      ensures Spent(h.world, h.world.ledger.txs[k].upload).storage <= h.world.origins[k].call.amount
    {
      NewRowSpent(s, h, id, r, k);
    }
    hide FundsOk;
  }

  // Reserving takes nothing from the allowance.
  lemma ReservedFunds(w: World, v: World, left: map<string, nat>, u: UploadId, p: Phase, t: TxRow)
    requires p.Signing? && p.stage.Idle? && TaskFunds(w, left, u, p)
    requires v.ledger.txs == w.ledger.txs + [t] && v.ledger.network == w.ledger.network && t.hash.None?
    requires forall i :: 0 <= i < |w.ledger.txs| && w.ledger.txs[i].network == w.ledger.network ==> w.ledger.txs[i].state == Settled
    ensures TaskFunds(v, left, u, p.(stage := Intended(|w.ledger.txs|)))
  {
    hide Covered;
    assert OthersSettled(v, Some(|w.ledger.txs|));
    hide OthersSettled;
  }

  lemma {:induction false} NewRowTask(s: Purse, h: Gateway, id: UploadId, r: Reservation)
    requires FundsOk(s) && NewRow(s.g, h, id, r)
    ensures TasksFunds(h, s.left)
  {
    hide Inv, FundsOk, TaskFunds, TasksFunds, SigningOk;
    assert Inv(s.g) by { FundsInv(s); }
    FirstCall(s, id);
    SigningTask(s.g, id);
    ReservedFunds(s.g.world, h.world, s.left, id, s.g.running[id].phase, NewTx(s.g.world.ledger, r));
    OnlyRun(s.g, h, s.left, id);
  }

  // A step of the signing task: no other run of `pay` is under way.
  lemma OnlyRun(g: Gateway, h: Gateway, left: map<string, nat>, id: UploadId)
    requires forall u :: u in g.running && u != id ==> !g.running[u].phase.Signing?
    requires forall u :: u in h.running && u != id ==> u in g.running && h.running[u] == g.running[u]
    requires id in h.running && h.running[id].phase.Signing? ==> TaskFunds(h.world, left, id, h.running[id].phase)
    ensures TasksFunds(h, left)
  {
    hide TaskFunds;
  }

  lemma {:induction false} ReserveFunds(s: Purse, id: UploadId, tx: string, nonce: nat, gasUpper: nat)
    requires FundsOk(s)
    ensures FundsOk(Step(s, ReserveStep(id, tx, nonce, gasUpper)))
  {
    hide Inv, DoReserve, Fail, Reserve, RowFunds, SpentFunds, TasksFunds, Still, NewRow, NextReservation;
    var g, e := s.g, ReserveStep(id, tx, nonce, gasUpper);
    OriginsMatch(g);
    StepKeeps(g, e);
    if AtCall(g, id) && g.running[id].phase.stage.Idle? {
      var r := NextReservation(g, id, tx, nonce, gasUpper);
      var o, h := Reserve(g.world.ledger, g.now, r), Apply(g, e);
      if o.Done? {
        ReserveAdds(g, id, tx, nonce, gasUpper);
        forall k, i | 0 <= k < |h.world.ledger.txs| && 0 <= i < |h.world.ledger.txs| ensures RowFunds(h.world, s.left, k, i) {
          NewRowFunds(s, h, id, r, k, i);
        }
        assert SpentFunds(h.world) by { NewRowsSpent(s, h, id, r); }
        NewRowTask(s, h, id, r);
      } else {
        ReserveFails(g, id, tx, nonce, gasUpper);
        FailStill(g, id, ClassOf(o.error), false);
        hide RowsFunds;
        StillFunds(s, Step(s, e));
      }
    }
  }

  lemma ReserveFails(g: Gateway, id: UploadId, tx: string, nonce: nat, gasUpper: nat)
    requires AtCall(g, id)
    ensures var o := Reserve(g.world.ledger, g.now, NextReservation(g, id, tx, nonce, gasUpper));
      o.Failed? ==> DoReserve(g, id, tx, nonce, gasUpper) == Fail(g, id, ClassOf(o.error), false)
  {
    hide Reserve, Fail, NextReservation;
  }

  // -- Mining --

  // The chain includes the signed bytes of row i; the token settles what they take.
  ghost predicate NewlyMined(g: Gateway, h: Gateway, i: nat, m: Mined) {
    && i < |g.world.ledger.txs| == |g.world.origins|
    && g.world.ledger.txs[i].hash.Some? && RefOf(g.world.ledger.txs[i]) !in g.world.mined
    && g.world.ledger.txs[i].Unresolved()
    && ChainAllows(g.world.origins[i].call, m)
    && h == g.(world := g.world.(mined := g.world.mined[RefOf(g.world.ledger.txs[i]) := m]))
  }

  lemma {:induction false} MineAdds(g: Gateway, i: nat, m: Mined)
    requires Inv(g)
    ensures Apply(g, MineStep(i, m)) != g ==> NewlyMined(g, Apply(g, MineStep(i, m)), i, m)
  {
    hide LI.Inv, OriginsOrdered, Journaled, TasksOk, SessionsOk, CompletesOk, ChainAllows;
    if Apply(g, MineStep(i, m)) != g {
      assert RowOk(g.world, i);
      Parts(g);
      LedgerRow(g.world.ledger, i);
    }
  }

  lemma OtherMoved(w: World, v: World, i: nat, m: Mined, j: nat)
    requires LI.RowsIndependent(w.ledger.txs) && i < |w.ledger.txs| && j < |w.ledger.txs|
    requires w.ledger.txs[i].hash.Some? && RefOf(w.ledger.txs[i]) !in w.mined
    requires v == w.(mined := w.mined[RefOf(w.ledger.txs[i]) := m])
    ensures j != i ==> MovedAt(v, j) == MovedAt(w, j) && MinedAt(v, j) == MinedAt(w, j)
    ensures MovedAt(w, i) == 0 && MovedAt(v, i) == m.storage && MinedAt(v, i) == m.success
    ensures j != i && w.ledger.txs[i].Unresolved() && w.ledger.txs[j].Unresolved() ==> w.ledger.txs[i].network != w.ledger.txs[j].network
  {
    LI.DistinctRows(w.ledger.txs, i, j);
    if j < i {
      assert LI.Independent(w.ledger.txs[j], w.ledger.txs[i]);
    } else if i < j {
      assert LI.Independent(w.ledger.txs[i], w.ledger.txs[j]);
    }
  }

  // Only one row of an upload is an allowance.
  lemma {:induction false} OneAllowance(s: Purse, k: nat, i: nat)
    requires FundsOk(s) && Covers(s.g.world, k, i)
    ensures !s.g.world.origins[i].call.TokenApproval?
  {
    Parts(s.g);
    hide Inv, LI.Inv, RowsFunds, TasksFunds, Spent, RowOk, Journaled;
  }

  lemma {:induction false} MinedRowFunds(s: Purse, h: Gateway, i: nat, m: Mined, k: nat, j: nat)
    requires FundsOk(s) && NewlyMined(s.g, h, i, m) && Honoured(s, i, m)
    requires k < |h.world.ledger.txs| && j < |h.world.ledger.txs|
    ensures RowFunds(h.world, LeftAfter(s, i, m), k, j)
  {
    hide Inv, LI.Inv, TasksFunds, SpentFunds, Spent, MovedAt, MinedAt, LI.RowsIndependent;
    assert RowFunds(s.g.world, s.left, k, j);
    FundsInv(s);
    Parts(s.g);
    LedgerRow(s.g.world.ledger, i);
    OtherMoved(s.g.world, h.world, i, m, j);
    if Covers(s.g.world, k, j) && j == i {
      OneAllowance(s, k, i);
    }
    assert Spent(h.world, h.world.ledger.txs[j].upload) == Spent(s.g.world, h.world.ledger.txs[j].upload) by { SameCharges(s.g.world, h.world, h.world.ledger.txs[j].upload); }
  }

  lemma SameCharges(w: World, v: World, u: UploadId)
    requires v.ledger == w.ledger
    ensures Spent(v, u) == Spent(w, u)
  {
  }

  lemma {:induction false} MinedTask(s: Purse, h: Gateway, i: nat, m: Mined, u: UploadId)
    requires FundsOk(s) && NewlyMined(s.g, h, i, m) && Honoured(s, i, m)
    requires u in h.running && h.running[u].phase.Signing?
    ensures TaskFunds(h.world, LeftAfter(s, i, m), u, h.running[u].phase)
  {
    hide Inv, LI.Inv, RowsFunds, SpentFunds, MovedAt, MinedAt, LI.RowsIndependent, SigningOk, WorldOk;
    var w, p := s.g.world, s.g.running[u].phase;
    assert TaskFunds(w, s.left, u, p);
    FundsInv(s);
    Parts(s.g);
    LedgerRow(w.ledger, i);
    SigningTask(s.g, u);
    if !p.stage.Idle? {
      StageRow(w, u, s.g.running[u].run, p);
      OtherMoved(w, h.world, i, m, p.stage.i);
    }
    hide FundsOk, TasksFunds;
    MinedFunds(s, h, i, m, u);
  }

  lemma {:induction false} MinedFunds(s: Purse, h: Gateway, i: nat, m: Mined, u: UploadId)
    requires NewlyMined(s.g, h, i, m) && Honoured(s, i, m)
    requires u in s.g.running && s.g.running[u].phase.Signing?
    requires var w, v, p := s.g.world, h.world, s.g.running[u].phase;
      && TaskFunds(w, s.left, u, p)
      && (!p.stage.Idle? ==>
            && p.next < |p.calls| && p.stage.i < |w.ledger.txs|
            && w.ledger.txs[p.stage.i].network == w.ledger.network
            && w.origins[p.stage.i].call == p.calls[p.next]
            && (if p.stage.i == i then MovedAt(w, i) == 0 && MovedAt(v, i) == m.storage && MinedAt(v, i) == m.success
                else MovedAt(v, p.stage.i) == MovedAt(w, p.stage.i) && MinedAt(v, p.stage.i) == MinedAt(w, p.stage.i)))
    ensures TaskFunds(h.world, LeftAfter(s, i, m), u, s.g.running[u].phase)
  {
    hide MovedAt, MinedAt, Upper;
    var w, v, p := s.g.world, h.world, s.g.running[u].phase;
    assert OthersSettled(w, Current(p.stage)) ==> OthersSettled(v, Current(p.stage));
    if p.next > 0 || !p.stage.Idle? {
      assert Current(p.stage) != Some(i) ==> w.ledger.txs[i].network != w.ledger.network;
    }
  }

  lemma {:induction false} MineFunds(s: Purse, i: nat, m: Mined)
    requires FundsOk(s)
    ensures FundsOk(Step(s, MineStep(i, m)))
  {
    hide Inv, Apply, Honoured, LeftAfter, NewlyMined, RowFunds, SpentFunds, TaskFunds;
    var t := Step(s, MineStep(i, m));
    if t != s {
      StepKeeps(s.g, MineStep(i, m));
      MineAdds(s.g, i, m);
      RowsStay(s.g, t.g, i, m);
      forall k, j | 0 <= k < |t.g.world.ledger.txs| && 0 <= j < |t.g.world.ledger.txs| ensures RowFunds(t.g.world, t.left, k, j) {
        MinedRowFunds(s, t.g, i, m, k, j);
      }
      forall u | u in t.g.running && t.g.running[u].phase.Signing? ensures TaskFunds(t.g.world, t.left, u, t.g.running[u].phase) {
        MinedTask(s, t.g, i, m, u);
      }
    }
  }

  lemma RowsStay(g: Gateway, h: Gateway, i: nat, m: Mined)
    requires NewlyMined(g, h, i, m)
    ensures SpentFunds(g.world) ==> SpentFunds(h.world)
  {
    forall k | 0 <= k < |g.world.ledger.txs| ensures Spent(h.world, g.world.ledger.txs[k].upload) == Spent(g.world, g.world.ledger.txs[k].upload) {
      SameCharges(g.world, h.world, g.world.ledger.txs[k].upload);
    }
    hide Spent;
  }

  // -- Settling --

  // Row i is settled at what it took, and its approval gets the rest back.
  ghost predicate NewlySettled(g: Gateway, h: Gateway, id: UploadId, i: nat) {
    && AtCall(g, id) && g.running[id].phase.stage == Sent(i)
    && i < |g.world.ledger.txs| == |g.world.origins|
    && var w, v, t, p := g.world, h.world, g.world.ledger.txs[i], g.running[id].phase;
       && t.Unresolved() && t.charge.None? && t.upload == id && t.network == w.ledger.network
       && w.origins[i].call == p.calls[p.next] && t.storageReserved == Upper(p.calls[p.next])
       && MovedAt(w, i) <= t.storageReserved
       && t.approval in w.ledger.approvals && t.approval in v.ledger.approvals
       && v.ledger.network == w.ledger.network && v.origins == w.origins && v.mined == w.mined
       && |v.ledger.txs| == |w.ledger.txs| && v.ledger.txs == w.ledger.txs[i := v.ledger.txs[i]]
       && v.ledger.txs[i] == t.(state := Settled, charge := v.ledger.txs[i].charge)
       && v.ledger.txs[i].charge.Some? && v.ledger.txs[i].charge.value.storage == MovedAt(w, i)
       && v.ledger.approvals == w.ledger.approvals[t.approval := v.ledger.approvals[t.approval]]
       && v.ledger.approvals[t.approval].definition == w.ledger.approvals[t.approval].definition
       && v.ledger.approvals[t.approval].reservedStorage + t.storageReserved
            == w.ledger.approvals[t.approval].reservedStorage + MovedAt(w, i)
       && (forall u :: u in h.running && u != id ==> u in g.running && h.running[u] == g.running[u])
       && id in h.running
       && (h.running[id].phase.Signing? ==>
             && MinedAt(w, i)
             && SameProgress(p, h.running[id].phase, MovedAt(w, i)))
  }

  predicate SameProgress(p: Phase, q: Phase, moved: nat)
    requires p.Signing?
  {
    && q.Signing? && q.calls == p.calls && q.next == p.next + 1 && q.stage.Idle?
    && q.paid.storage == p.paid.storage + moved
  }

  lemma SettledIsMoved(c: Call, m: Mined)
    requires ChainAllows(c, m)
    ensures SettledStorage(c, m) == m.storage
  {
  }

  lemma SettleExact(l: Ledger, i: nat, storage: nat, gas: nat)
    requires LI.Inv(l)
    requires i < |l.txs| && l.txs[i].hash.Some? && l.txs[i].network == l.network && l.txs[i].state == Signed
    ensures var o := Settle(l, l.txs[i].hash.value, storage, gas); var a := l.txs[i].approval;
      o.Done? ==>
        && storage <= l.txs[i].storageReserved
        && a in l.approvals && a in o.tables.approvals
        && o.tables == l.(
             txs := l.txs[i := l.txs[i].(state := Settled, charge := Some(Charge(storage, gas)))],
             approvals := l.approvals[a := o.tables.approvals[a]])
        && o.tables.approvals[a].definition == l.approvals[a].definition
        && o.tables.approvals[a].reservedStorage + l.txs[i].storageReserved == l.approvals[a].reservedStorage + storage
  {
    LI.FoundByHash(l.txs, i);
  }

  lemma {:induction false} SettleAdds(g: Gateway, id: UploadId, i: nat)
    requires Inv(g) && AtCall(g, id) && g.running[id].phase.stage == Sent(i) && HasHash(g, i)
    requires RefOf(g.world.ledger.txs[i]) in g.world.mined
    requires var p, t := g.running[id].phase, g.world.ledger.txs[i];
      Settle(g.world.ledger, t.hash.value, SettledStorage(p.calls[p.next], g.world.mined[RefOf(t)]), g.world.mined[RefOf(t)].gas).Done?
    ensures NewlySettled(g, Apply(g, SettleStep(id)), id, i)
  {
    hide Inv, LI.Inv, SigningOk, Settle, ChainAllows, SettledStorage, LI.RowsIndependent, OriginsOrdered, Journaled;
    var w, p, t := g.world, g.running[id].phase, g.world.ledger.txs[i];
    Parts(g);
    SigningTask(g, id);
    StageRow(w, id, g.running[id].run, p);
    LedgerRow(w.ledger, i);
    assert RowOk(w, i);
    var m := w.mined[RefOf(t)];
    SettledIsMoved(p.calls[p.next], m);
    SettleExact(w.ledger, i, m.storage, m.gas);
  }

  lemma SettledMoved(w: World, v: World, i: nat, j: nat)
    requires i < |w.ledger.txs| && j < |w.ledger.txs| && v.mined == w.mined
    requires |v.ledger.txs| == |w.ledger.txs| && v.ledger.txs == w.ledger.txs[i := v.ledger.txs[i]]
    requires v.ledger.txs[i] == w.ledger.txs[i].(state := Settled, charge := v.ledger.txs[i].charge)
    ensures MovedAt(v, j) == MovedAt(w, j)
  {
  }

  lemma SettledSpent(w: World, v: World, i: nat, u: UploadId)
    requires i < |w.ledger.txs| == |v.ledger.txs| && v.ledger.txs == w.ledger.txs[i := v.ledger.txs[i]]
    requires v.ledger.txs[i].upload == w.ledger.txs[i].upload && w.ledger.txs[i].charge.None? && v.ledger.txs[i].charge.Some?
    ensures Spent(v, u).storage == Spent(w, u).storage + (if w.ledger.txs[i].upload == u then v.ledger.txs[i].charge.value.storage else 0)
  {
    SumUpdate(w.ledger.txs, i, v.ledger.txs[i], SpentStorage(u));
  }

  // Another unresolved row is of another network, hence of another approval and upload.
  lemma {:induction false} ElsewhereRow(l: Ledger, i: nat, j: nat)
    requires LI.Inv(l) && i < |l.txs| && j < |l.txs| && i != j
    requires l.txs[i].Unresolved() && l.txs[j].Unresolved()
    ensures l.txs[i].network != l.txs[j].network && l.txs[i].approval != l.txs[j].approval && l.txs[i].upload != l.txs[j].upload
  {
    RowNetworkOf(l, i);
    RowNetworkOf(l, j);
    if i < j {
      assert LI.Independent(l.txs[i], l.txs[j]);
    } else {
      assert LI.Independent(l.txs[j], l.txs[i]);
    }
  }

  lemma {:induction false} SettledRowFunds(s: Purse, h: Gateway, id: UploadId, i: nat, k: nat, j: nat)
    requires FundsOk(s) && NewlySettled(s.g, h, id, i)
    requires k < |h.world.ledger.txs| && j < |h.world.ledger.txs|
    ensures RowFunds(h.world, s.left, k, j)
  {
    hide Inv, LI.Inv, MovedAt, RowFunds, AtCall, SameProgress, SpentFunds, TasksFunds;
    assert RowFunds(s.g.world, s.left, k, j);
    FundsInv(s);
    assert LI.Inv(s.g.world.ledger) by { Parts(s.g); }
    SettledMoved(s.g.world, h.world, i, j);
    ElsewhereFunds(s.g.world, h.world, s.left, i, k, j);
  }

  lemma {:induction false} ElsewhereFunds(w: World, v: World, left: map<string, nat>, i: nat, k: nat, j: nat)
    requires LI.Inv(w.ledger) && RowFunds(w, left, k, j)
    requires i < |w.ledger.txs| == |v.ledger.txs| && k < |w.ledger.txs| && j < |w.ledger.txs|
    requires v.ledger.txs == w.ledger.txs[i := v.ledger.txs[i]] && v.origins == w.origins
    requires v.ledger.txs[i].state == Settled && v.ledger.txs[i].upload == w.ledger.txs[i].upload
    requires w.ledger.txs[i].Unresolved() && w.ledger.txs[i].charge.None? && v.ledger.txs[i].charge.Some?
    requires forall a :: a in w.ledger.approvals && a != w.ledger.txs[i].approval ==> a in v.ledger.approvals && v.ledger.approvals[a] == w.ledger.approvals[a]
    requires MovedAt(v, j) == MovedAt(w, j)
    ensures RowFunds(v, left, k, j)
  {
    hide LI.Inv, MovedAt, Spent;
    if j != i && w.ledger.txs[j].Unresolved() {
      ElsewhereRow(w.ledger, i, j);
      SettledSpent(w, v, i, w.ledger.txs[j].upload);
    }
  }

  // What is settled stays within the run's allowance.
  lemma {:induction false} SettledWithin(s: Purse, h: Gateway, id: UploadId, i: nat, k: nat)
    requires FundsOk(s) && NewlySettled(s.g, h, id, i)
    requires k < |h.world.ledger.txs| && h.world.origins[k].call.TokenApproval?
    ensures h.world.origins[k].step == 0 && Spent(h.world, h.world.ledger.txs[k].upload).storage <= h.world.origins[k].call.amount
  {
    var w := s.g.world;
    hide Inv, TasksFunds, RowOk, Spent, MovedAt, MinedAt, AtCall, SameProgress, Upper;
    assert RowFunds(w, s.left, k, i);
    RowAt(s.g, i);
    SettledSpent(w, h.world, i, w.ledger.txs[k].upload);
    if k == i {
      NothingMoved(w, i);
    }
  }

  lemma RowAt(g: Gateway, i: nat)
    requires Inv(g) && i < |g.world.ledger.txs|
    ensures |g.world.origins| == |g.world.ledger.txs| && RowOk(g.world, i)
  {
    hide LI.Inv, OriginsOrdered, RowOk, Journaled, TasksOk, SessionsOk, CompletesOk;
  }

  lemma NothingMoved(w: World, i: nat)
    requires i < |w.ledger.txs| == |w.origins| && RowOk(w, i) && w.origins[i].call.TokenApproval?
    ensures MovedAt(w, i) == 0
  {
  }

  // After a call settles, the run is between two calls again.
  lemma {:induction false} SettledTask(s: Purse, h: Gateway, id: UploadId, i: nat)
    requires FundsOk(s) && NewlySettled(s.g, h, id, i) && h.running[id].phase.Signing?
    ensures TaskFunds(h.world, s.left, id, h.running[id].phase)
  {
    var w, p := s.g.world, s.g.running[id].phase;
    FundsInv(s);
    SigningTask(s.g, id);
    assert TaskFunds(w, s.left, id, p) && BudgetOk(w, id, p);
    assert w.ledger.txs[i].approval == id.approval by { Parts(s.g); RowNetworkOf(w.ledger, i); }
    assert RowOk(w, i) by { RowAt(s.g, i); }
    hide Inv, SigningOk;
    if p.next > 0 && p.calls[0].TokenApproval? {
      var k := AllowanceAt(s, id);
      assert RowFunds(w, s.left, k, i);
    } else if p.calls[0].TokenApproval? {
      NothingMoved(w, i);
    }
    hide FundsOk, RowsFunds, RowOk, BudgetOk;
    SettledFunds(s, h, id, i);
  }

  // The allowance row of a run that is past it.
  lemma {:induction false} AllowanceAt(s: Purse, id: UploadId) returns (k: nat)
    requires FundsOk(s) && AtCall(s.g, id) && s.g.running[id].phase.stage.Sent?
    requires s.g.running[id].phase.next > 0 && s.g.running[id].phase.calls[0].TokenApproval?
    ensures k < |s.g.world.ledger.txs| == |s.g.world.origins|
    ensures Covers(s.g.world, k, s.g.running[id].phase.stage.i) && s.g.world.origins[k].call == s.g.running[id].phase.calls[0]
  {
    var w, p, run := s.g.world, s.g.running[id].phase, s.g.running[id].run;
    FundsInv(s);
    SigningTask(s.g, id);
    StageRow(w, id, run, p);
    hide FundsOk, Inv, StageOk, BudgetOk, Spent, RowsOfRun;
    assert CallPaid(w, id, Origin(run, 0, p.calls[0]), p.hashes[0]);
    var n :| PaidRow(w, n, id, Origin(run, 0, p.calls[0]), p.hashes[0]);
    k := n;
  }

  lemma {:induction false} SettledFunds(s: Purse, h: Gateway, id: UploadId, i: nat)
    requires NewlySettled(s.g, h, id, i) && h.running[id].phase.Signing?
    requires s.g.world.ledger.txs[i].approval == id.approval
    requires TaskFunds(s.g.world, s.left, id, s.g.running[id].phase)
    requires var w, p := s.g.world, s.g.running[id].phase;
      p.calls[0].TokenApproval? ==>
        && w.ledger.approvals[id.approval].reservedStorage
             + (if p.next > 0 then Left(s.left, w.ledger.network) + MovedAt(w, i) else Sum(p.calls[1..], UpperOf()))
             <= w.ledger.approvals[id.approval].definition.StorageCap() + w.ledger.txs[i].storageReserved
        && (p.next == 0 ==> MovedAt(w, i) == 0)
    ensures TaskFunds(h.world, s.left, id, h.running[id].phase)
  {
    hide MovedAt;
    var w, v, p := s.g.world, h.world, s.g.running[id].phase;
    assert OthersSettled(v, None) by { hide TaskFunds; hide AllowancePaid; AllSettled(s, h, id, i); }
    assert p.calls[p.next..] == [p.calls[p.next]] + p.calls[p.next + 1..];
    SumCons(p.calls[p.next], p.calls[p.next + 1..], UpperOf());
    assert UpperOf()(p.calls[p.next]) == Upper(p.calls[p.next]);
    hide Upper, OthersSettled, Sum;
  }

  lemma AllSettled(s: Purse, h: Gateway, id: UploadId, i: nat)
    requires NewlySettled(s.g, h, id, i) && OthersSettled(s.g.world, Some(i))
    ensures OthersSettled(h.world, None)
  {
  }

  lemma {:induction false} SettleFunds(s: Purse, id: UploadId)
    requires FundsOk(s)
    ensures FundsOk(Step(s, SettleStep(id)))
  {
    hide Inv, DoSettle, Fail, Settle, SettledStorage, RowFunds, SpentFunds, TaskFunds, Still, NewlySettled;
    var g, t := s.g, Step(s, SettleStep(id));
    OriginsMatch(g);
    StepKeeps(g, SettleStep(id));
    if AtCall(g, id) && g.running[id].phase.stage.Sent? && HasHash(g, g.running[id].phase.stage.i)
       && RefOf(g.world.ledger.txs[g.running[id].phase.stage.i]) in g.world.mined
    {
      var i := g.running[id].phase.stage.i;
      var m := g.world.mined[RefOf(g.world.ledger.txs[i])];
      var o := Settle(g.world.ledger, g.world.ledger.txs[i].hash.value, SettledStorage(g.running[id].phase.calls[g.running[id].phase.next], m), m.gas);
      if o.Done? {
        SettleAdds(g, id, i);
        SettledFundsOk(s, t, id, i);
      } else {
        SettleFails(g, id, i, m);
        FailStill(g, id, ClassOf(o.error), false);
        hide RowsFunds, TasksFunds;
        StillFunds(s, t);
      }
    }
  }

  lemma SettleFails(g: Gateway, id: UploadId, i: nat, m: Mined)
    requires AtCall(g, id) && g.running[id].phase.stage == Sent(i) && HasHash(g, i)
    ensures var o := Settle(g.world.ledger, g.world.ledger.txs[i].hash.value, SettledStorage(g.running[id].phase.calls[g.running[id].phase.next], m), m.gas);
      o.Failed? ==> DoSettle(g, id, i, m) == Fail(g, id, ClassOf(o.error), false)
  {
    hide Settle, Fail, SettledStorage;
  }

  lemma {:induction false} SettledFundsOk(s: Purse, t: Purse, id: UploadId, i: nat)
    requires FundsOk(s) && Inv(t.g) && t.left == s.left && NewlySettled(s.g, t.g, id, i)
    ensures FundsOk(t)
  {
    hide Inv, RowFunds, NewlySettled, TaskFunds;
    SettledShape(s.g, t.g, id, i);
    forall k, j | 0 <= k < |t.g.world.ledger.txs| && 0 <= j < |t.g.world.ledger.txs| ensures RowFunds(t.g.world, t.left, k, j) {
      SettledRowFunds(s, t.g, id, i, k, j);
    }
    forall k | 0 <= k < |t.g.world.ledger.txs| && t.g.world.origins[k].call.TokenApproval?
      ensures t.g.world.origins[k].step == 0
      ensures Spent(t.g.world, t.g.world.ledger.txs[k].upload).storage <= t.g.world.origins[k].call.amount
    {
      SettledWithin(s, t.g, id, i, k);
    }
    if t.g.running[id].phase.Signing? {
      SettledTask(s, t.g, id, i);
    }
    hide FundsOk;
    assert Inv(s.g) by { FundsInv(s); }
    SigningTask(s.g, id);
    OnlyRun(s.g, t.g, t.left, id);
  }

  lemma SettledShape(g: Gateway, h: Gateway, id: UploadId, i: nat)
    requires NewlySettled(g, h, id, i)
    ensures |h.world.origins| == |h.world.ledger.txs| == |g.world.ledger.txs|
    ensures id in g.running && g.running[id].phase.Signing? && id in h.running
    ensures forall u :: u in h.running && u != id ==> u in g.running && h.running[u] == g.running[u]
  {
  }

  lemma {:induction false} StepFunds(s: Purse, e: Event)
    requires FundsOk(s)
    ensures FundsOk(Step(s, e))
  {
    hide Inv, Apply, RowsFunds, SpentFunds, TasksFunds, Still, Honoured, LeftAfter;
    match e {
      case ReserveStep(id, tx, nonce, gasUpper) => ReserveFunds(s, id, tx, nonce, gasUpper);
      case SignStep(id, hash) => SignFunds(s, id, hash);
      case MineStep(i, m) => MineFunds(s, i, m);
      case SettleStep(id) => SettleFunds(s, id);
      case _ =>
        StepKeeps(s.g, e);
        QuietStill(s.g, e);
        StillFunds(s, Step(s, e));
    }
  }

  lemma {:induction false} RunFunds(s: Purse, events: seq<Event>)
    requires FundsOk(s)
    ensures FundsOk(Runs(s, events))
  {
    hide FundsOk, Step;
    if |events| > 0 {
      RunFunds(s, events[..|events| - 1]);
      StepFunds(Runs(s, events[..|events| - 1]), events[|events| - 1]);
    }
  }

  // -- What the allowance is enough for, and what it bounds --

  // The current call's payment has not been mined.
  predicate Unpaid(g: Gateway, id: UploadId)
    requires AtCall(g, id)
  {
    var p, w := g.running[id].phase, g.world;
    p.stage.Idle? || p.stage.i >= |w.ledger.txs| || w.ledger.txs[p.stage.i].hash.None? || RefOf(w.ledger.txs[p.stage.i]) !in w.mined
  }

  // Every payment of a run of `pay` finds enough allowance for itself and for all that follow it, so
  // no payment reverts for want of it.
  lemma {:induction false} AllowanceNeverRunsOut(s: Purse, events: seq<Event>, id: UploadId)
    requires FundsOk(s)
    requires AtCall(Runs(s, events).g, id) && Unpaid(Runs(s, events).g, id)
    ensures var t := Runs(s, events); var p, l := t.g.running[id].phase, t.g.world.ledger;
      && (!p.calls[p.next].TokenApproval? ==> Sum(p.calls[p.next..], UpperOf()) <= Left(t.left, l.network))
      && (p.stage.Sent? ==> forall m :: ChainAllows(p.calls[p.next], m) && m.storage <= Upper(p.calls[p.next]) ==> Honoured(t, p.stage.i, m))
  {
    hide Runs, FundsOk, Honoured, ChainAllows, Upper, Sum;
    RunFunds(s, events);
    EnoughLeft(Runs(s, events), id);
    PaymentHonoured(Runs(s, events), id);
  }

  lemma {:induction false} PaymentHonoured(t: Purse, id: UploadId)
    requires FundsOk(t) && AtCall(t.g, id)
    requires var p := t.g.running[id].phase;
      !p.calls[p.next].TokenApproval? ==> Sum(p.calls[p.next..], UpperOf()) <= Left(t.left, t.g.world.ledger.network)
    ensures var p := t.g.running[id].phase;
      p.stage.Sent? ==> forall m :: ChainAllows(p.calls[p.next], m) && m.storage <= Upper(p.calls[p.next]) ==> Honoured(t, p.stage.i, m)
  {
    hide FundsOk, Inv, SigningOk, Upper, ChainAllows;
    var p := t.g.running[id].phase;
    if p.stage.Sent? {
      FundsInv(t);
      SigningTask(t.g, id);
      StageRow(t.g.world, id, t.g.running[id].run, p);
      SumAtLeast(p.calls[p.next..], 0, UpperOf());
      assert UpperOf()(p.calls[p.next..][0]) == Upper(p.calls[p.next]);
    }
  }

  lemma {:induction false} EnoughLeft(t: Purse, id: UploadId)
    requires FundsOk(t) && AtCall(t.g, id) && Unpaid(t.g, id)
    ensures var p := t.g.running[id].phase;
      !p.calls[p.next].TokenApproval? ==> Sum(p.calls[p.next..], UpperOf()) <= Left(t.left, t.g.world.ledger.network)
  {
    hide Inv, RowsFunds, SpentFunds, OthersSettled;
    var p := t.g.running[id].phase;
    assert TaskFunds(t.g.world, t.left, id, p);
    hide TasksFunds;
    if !p.calls[0].TokenApproval? {
      assert forall k :: 0 <= k < |p.calls[p.next..]| ==> p.calls[p.next..][k] == p.calls[p.next + k];
      SumZero(p.calls[p.next..], UpperOf());
    }
  }

  // At most one row of an approval is unresolved: they are all of one network.
  lemma {:induction false} OneOpenRow(l: Ledger, i: nat, j: nat)
    requires LI.Inv(l) && i < |l.txs| && j < |l.txs| && i != j
    requires l.txs[i].approval == l.txs[j].approval && l.txs[i].Unresolved()
    ensures l.txs[j].state == Settled
  {
    hide LI.Inv;
    if l.txs[j].Unresolved() {
      ElsewhereRow(l, i, j);
    }
  }

  // A settled row holds what the chain moved for it.
  lemma {:induction false} SettledHolds(g: Gateway, i: nat)
    requires Inv(g) && i < |g.world.ledger.txs| && g.world.ledger.txs[i].state == Settled
    ensures g.world.ledger.txs[i].charge.Some? && g.world.ledger.txs[i].charge.value.storage == MovedAt(g.world, i)
  {
    hide Inv, LI.Inv, LI.RowsIndependent;
    Parts(g);
    LedgerRow(g.world.ledger, i);
    RowAt(g, i);
  }

  // The rows with row i replaced as if it had been settled at what it moved.
  function AsSettled(w: World, i: nat): seq<TxRow>
    requires i < |w.ledger.txs|
  {
    w.ledger.txs[i := w.ledger.txs[i].(charge := Some(Charge(MovedAt(w, i), 0)))]
  }

  lemma {:induction false} MovedAtMostHeld(g: Gateway, a: string, i: nat)
    requires Inv(g) && i < |g.world.ledger.txs|
    requires forall j :: 0 <= j < |g.world.ledger.txs| && j != i && g.world.ledger.txs[j].approval == a ==> g.world.ledger.txs[j].state == Settled
    ensures Sum(g.world.ledger.txs, GT.ChargedStorage(g.world, a)) <= Sum(AsSettled(g.world, i), LI.HeldStorageFor(a))
  {
    hide Inv;
    var w := g.world;
    forall j | 0 <= j < |w.ledger.txs|
      ensures GT.ChargedStorage(w, a)(w.ledger.txs[j]) <= LI.HeldStorageFor(a)(AsSettled(w, i)[j])
    {
      if j != i && w.ledger.txs[j].approval == a {
        SettledHolds(g, j);
      }
    }
    SumPairwise(w.ledger.txs, AsSettled(w, i), GT.ChargedStorage(w, a), LI.HeldStorageFor(a));
  }

  lemma {:induction false} SumPairwise(a: seq<TxRow>, b: seq<TxRow>, f: TxRow -> nat, g: TxRow -> nat)
    requires |a| == |b| && forall i :: 0 <= i < |a| ==> f(a[i]) <= g(b[i])
    ensures Sum(a, f) <= Sum(b, g)
  {
    if |a| > 0 {
      SumPairwise(a[..|a| - 1], b[..|b| - 1], f, g);
    }
  }

  // A batch paid without an allowance of its run: the run reserves nothing, so it sets none.
  ghost predicate Uncovered(w: World, i: nat)
    requires i < |w.ledger.txs| == |w.origins|
  {
    w.origins[i].call.MerkleBatch? && forall k :: 0 <= k < |w.ledger.txs| ==> !Covers(w, k, i)
  }

  // The storage cap of an approval holds whatever the payment contract charges for a batch, above its
  // estimate or not: it cannot take more than the allowance. Only a batch estimated at nothing, which
  // sets no allowance, has to cost nothing.
  lemma {:induction false} StorageCapHolds(s: Purse, events: seq<Event>, a: string)
    requires FundsOk(s) && a in Runs(s, events).g.world.ledger.approvals
    requires var w := Runs(s, events).g.world;
      forall i :: 0 <= i < |w.ledger.txs| == |w.origins| && w.ledger.txs[i].approval == a && Uncovered(w, i) ==> MovedAt(w, i) == 0
    ensures var w := Runs(s, events).g.world;
      Sum(w.ledger.txs, GT.ChargedStorage(w, a)) <= w.ledger.approvals[a].definition.StorageCap()
  {
    hide Runs, FundsOk;
    RunFunds(s, events);
    CapHolds(Runs(s, events), a);
  }

  lemma {:induction false} CapHolds(t: Purse, a: string)
    requires FundsOk(t) && a in t.g.world.ledger.approvals
    requires var w := t.g.world;
      forall i :: 0 <= i < |w.ledger.txs| == |w.origins| && w.ledger.txs[i].approval == a && Uncovered(w, i) ==> MovedAt(w, i) == 0
    ensures var w := t.g.world; Sum(w.ledger.txs, GT.ChargedStorage(w, a)) <= w.ledger.approvals[a].definition.StorageCap()
  {
    hide FundsOk, Inv, LI.Inv, MovedAt, PaymentApproval.StorageCap, Uncovered;
    var w := t.g.world;
    FundsInv(t);
    Parts(t.g);
    ConservedAt(w.ledger, a);
    if i :| 0 <= i < |w.ledger.txs| && w.ledger.txs[i].approval == a && w.ledger.txs[i].Unresolved() {
      forall j | 0 <= j < |w.ledger.txs| && j != i && w.ledger.txs[j].approval == a ensures w.ledger.txs[j].state == Settled {
        OneOpenRow(w.ledger, i, j);
      }
      MovedAtMostHeld(t.g, a, i);
      OpenRowFits(t, a, i);
    } else if |w.ledger.txs| > 0 {
      AllSettledFits(t.g, a);
    }
  }

  lemma ConservedAt(l: Ledger, a: string)
    requires LI.Inv(l) && a in l.approvals
    ensures l.approvals[a].reservedStorage == Sum(l.txs, LI.HeldStorageFor(a)) <= l.approvals[a].definition.StorageCap()
  {
    assert LI.ApprovalOk(l, a);
  }

  lemma {:induction false} AllSettledFits(g: Gateway, a: string)
    requires Inv(g)
    requires forall j :: 0 <= j < |g.world.ledger.txs| && g.world.ledger.txs[j].approval == a ==> g.world.ledger.txs[j].state == Settled
    ensures Sum(g.world.ledger.txs, GT.ChargedStorage(g.world, a)) <= Sum(g.world.ledger.txs, LI.HeldStorageFor(a))
  {
    hide Inv;
    var w := g.world;
    forall j | 0 <= j < |w.ledger.txs| ensures GT.ChargedStorage(w, a)(w.ledger.txs[j]) <= LI.HeldStorageFor(a)(w.ledger.txs[j]) {
      if w.ledger.txs[j].approval == a {
        SettledHolds(g, j);
      }
    }
    SumMonotone(w.ledger.txs, GT.ChargedStorage(w, a), LI.HeldStorageFor(a));
  }

  lemma {:induction false} OpenRowFits(t: Purse, a: string, i: nat)
    requires FundsOk(t) && a in t.g.world.ledger.approvals && i < |t.g.world.ledger.txs| == |t.g.world.origins|
    requires t.g.world.ledger.txs[i].approval == a && t.g.world.ledger.txs[i].Unresolved()
    requires Uncovered(t.g.world, i) ==> MovedAt(t.g.world, i) == 0
    ensures Sum(AsSettled(t.g.world, i), LI.HeldStorageFor(a)) <= t.g.world.ledger.approvals[a].definition.StorageCap()
  {
    var w := t.g.world;
    FundsInv(t);
    Parts(t.g);
    LedgerRow(w.ledger, i);
    RowAt(t.g, i);
    ConservedAt(w.ledger, a);
    hide Inv, LI.Inv, LI.RowsIndependent, TasksFunds, SpentFunds, PaymentApproval.StorageCap, WorldOk, Spent;
    SumUpdate(w.ledger.txs, i, AsSettled(w, i)[i], LI.HeldStorageFor(a));
    if k :| 0 <= k < |w.ledger.txs| && Covers(w, k, i) {
      assert RowFunds(w, t.left, k, i);
    } else {
      UncoveredFits(w, i);
    }
  }

  lemma UncoveredFits(w: World, i: nat)
    requires i < |w.ledger.txs| == |w.origins| && RowOk(w, i)
    requires w.origins[i].call.MerkleBatch? ==> MovedAt(w, i) == 0
    ensures MovedAt(w, i) <= w.ledger.txs[i].storageReserved
  {
  }

  // The chain never moves more for an upload than the one allowance its run has set, whatever any of
  // its calls was estimated at.
  lemma {:induction false} MovedWithinAllowance(s: Purse, events: seq<Event>, k: nat)
    requires FundsOk(s)
    requires var w := Runs(s, events).g.world; k < |w.ledger.txs| == |w.origins| && w.origins[k].call.TokenApproval?
    ensures var w := Runs(s, events).g.world;
      Sum(w.ledger.txs, GT.ChainStorageOf(w, w.ledger.txs[k].upload)) <= w.origins[k].call.amount
  {
    hide Runs, FundsOk;
    RunFunds(s, events);
    AllowanceHolds(Runs(s, events), k);
  }

  lemma {:induction false} AllowanceHolds(t: Purse, k: nat)
    requires FundsOk(t) && k < |t.g.world.ledger.txs| == |t.g.world.origins| && t.g.world.origins[k].call.TokenApproval?
    ensures var w := t.g.world; Sum(w.ledger.txs, GT.ChainStorageOf(w, w.ledger.txs[k].upload)) <= w.origins[k].call.amount
  {
    hide Inv, LI.Inv, FundsOk, MovedAt, Spent, Sum;
    var w, u := t.g.world, t.g.world.ledger.txs[k].upload;
    FundsInv(t);
    assert LI.Inv(w.ledger) by { Parts(t.g); }
    if i :| 0 <= i < |w.ledger.txs| && w.ledger.txs[i].upload == u && w.ledger.txs[i].Unresolved() {
      RowNetworkOf(w.ledger, i);
      forall j | 0 <= j < |w.ledger.txs| && j != i && w.ledger.txs[j].upload == u ensures w.ledger.txs[j].state == Settled {
        RowNetworkOf(w.ledger, j);
        OneOpenRow(w.ledger, i, j);
      }
      ChainSpent(t.g, u, i);
      OpenSpent(t, k, i);
    } else {
      ChainSpent(t.g, u, k);
      OpenSpent(t, k, k);
    }
  }

  lemma {:induction false} OpenSpent(t: Purse, k: nat, i: nat)
    requires FundsOk(t) && k < |t.g.world.ledger.txs| == |t.g.world.origins| && t.g.world.origins[k].call.TokenApproval?
    requires i < |t.g.world.ledger.txs| && t.g.world.ledger.txs[i].upload == t.g.world.ledger.txs[k].upload
    ensures var w := t.g.world;
      Spent(w, w.ledger.txs[k].upload).storage + (if w.ledger.txs[i].Unresolved() then MovedAt(w, i) else 0) <= w.origins[k].call.amount
  {
    hide Inv, TasksFunds, MovedAt, Spent;
    assert RowFunds(t.g.world, t.left, k, i);
    if k == i {
      RowAt(t.g, i);
      NothingMoved(t.g.world, i);
    }
  }

  lemma {:induction false} ChainSpent(g: Gateway, u: UploadId, i: nat)
    requires Inv(g) && i < |g.world.ledger.txs| && g.world.ledger.txs[i].upload == u
    requires forall j :: 0 <= j < |g.world.ledger.txs| && j != i && g.world.ledger.txs[j].upload == u ==> g.world.ledger.txs[j].state == Settled
    ensures Sum(g.world.ledger.txs, GT.ChainStorageOf(g.world, u)) <=
      Spent(g.world, u).storage + (if g.world.ledger.txs[i].Unresolved() then MovedAt(g.world, i) else 0)
  {
    hide Inv;
    var w := g.world;
    if w.ledger.txs[i].state == Settled {
      forall j | 0 <= j < |w.ledger.txs| ensures GT.ChainStorageOf(w, u)(w.ledger.txs[j]) <= SpentStorage(u)(w.ledger.txs[j]) {
        if w.ledger.txs[j].upload == u {
          SettledHolds(g, j);
        }
      }
      SumMonotone(w.ledger.txs, GT.ChainStorageOf(w, u), SpentStorage(u));
    } else {
      assert w.ledger.txs[i].charge.None? by { UnsettledCharge(g, i); }
      forall j | 0 <= j < |w.ledger.txs| ensures GT.ChainStorageOf(w, u)(w.ledger.txs[j]) <= SpentStorage(u)(AsSettled(w, i)[j]) {
        if j != i && w.ledger.txs[j].upload == u {
          SettledHolds(g, j);
        }
      }
      SumPairwise(w.ledger.txs, AsSettled(w, i), GT.ChainStorageOf(w, u), SpentStorage(u));
      SumUpdate(w.ledger.txs, i, AsSettled(w, i)[i], SpentStorage(u));
    }
  }

  lemma UnsettledCharge(g: Gateway, i: nat)
    requires Inv(g) && i < |g.world.ledger.txs|
    ensures g.world.ledger.txs[i].state != Settled ==> g.world.ledger.txs[i].charge.None?
  {
    hide Inv, LI.Inv, LI.RowsIndependent;
    Parts(g);
    LedgerRow(g.world.ledger, i);
  }
}