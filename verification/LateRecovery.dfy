// A completed upload whose row is overwritten: a resumed task commits its completion, its deadline
// falls before the answer, and it goes on to write recovery.
module LateRecovery {
  import opened Outcomes
  import opened Amounts
  import opened Contract
  import opened Ledger
  import opened Signer
  import opened Gateway
  import opened GatewayInvariant
  import opened GatewaySigning
  import GT = GatewayTheorems
  import CS = ControlledSigner
  import LI = LedgerInvariant

  // From a paid upload that is stored in part, to its completion and the recovery written over it.
  function LateEvents(u: UploadId): seq<Event> {
    [StorePartial(u), FinishStep(u, true), RemoveStep(u), ResumeRequest(u), StoreComplete(u), LoseCompletion(u, true),
     FinishStep(u, true)]
  }

  lemma RunsOn(g: Gateway, events: seq<Event>, k: nat)
    requires k < |events|
    ensures Run(g, events[..k + 1]) == Apply(Run(g, events[..k]), events[k])
  {
    hide Apply;
    assert events[..k + 1][..k] == events[..k];
  }

  // What the events leave alone.
  ghost predicate Alongside(g: Gateway, h: Gateway, u: UploadId) {
    && h.now == g.now && h.nextRun >= g.nextRun
    && h.world.ledger.txs == g.world.ledger.txs
    && u in h.world.ledger.uploads && u in g.world.ledger.uploads
    && h.world.ledger.uploads[u].approval == g.world.ledger.uploads[u].approval
    && h.world.ledger.approvals.Keys == g.world.ledger.approvals.Keys
  }

  ghost predicate Stored(g: Gateway, u: UploadId, paid: Receipt) {
    && u in g.running && g.running[u].phase == Storing(paid, false)
    && u in g.world.ledger.uploads && HasTxOf(g.world.ledger.txs, u)
    && |Live(g.resumes, g.now)| < MAX_RESUMES
  }

  // Partial: the session is retained, the row says so, the task leaves.
  lemma LeavesPartial(g: Gateway, u: UploadId, paid: Receipt)
    requires Stored(g, u, paid)
    ensures var h := Apply(Apply(Apply(g, StorePartial(u)), FinishStep(u, true)), RemoveStep(u));
      && Alongside(g, h, u)
      && u !in h.running && u in h.resumes && h.resumes[u] == Session(paid, g.now + RESUME_SECONDS)
  {
    hide Live, HasTxOf, HasStorageIntent, Approve, Activate, CancelUnpaid, DoUpload, Begin, DoReserve, DoSign, DoSettle, Initialize;
    var g1 := Apply(g, StorePartial(u));
    assert g1 == DoStorePartial(g, u);
    var g2 := Apply(g1, FinishStep(u, true));
    assert g2.world.ledger == Finish(g1.world.ledger, u, Partial, None);
  }

  // Resumed and stored: the completion commits, and is not heard of.
  lemma CompletesUnheard(g: Gateway, u: UploadId, paid: Receipt)
    requires u !in g.running && u in g.resumes && g.resumes[u].paid == paid && g.resumes[u].expires > g.now
    requires u in g.world.ledger.uploads
    ensures var h := Apply(Apply(Apply(g, ResumeRequest(u)), StoreComplete(u)), LoseCompletion(u, true));
      && Alongside(g, h, u)
      && h.world.ledger.uploads[u].state == Complete && h.world.ledger.uploads[u].result == Some(paid)
      && u in h.running && h.running[u].phase == Failing(NeedsRecovery, true)
  {
    hide HasTxOf, HasStorageIntent, Approve, Activate, CancelUnpaid, DoUpload, Begin, DoReserve, DoSign, DoSettle, Initialize;
    var g1 := Apply(g, ResumeRequest(u));
    assert g1 == DoResume(g, u);
    var g2 := Apply(g1, StoreComplete(u));
    assert g2.running[u].phase == Succeeding(paid, true);
    assert Apply(g2, LoseCompletion(u, true)).world.ledger == Finish(g2.world.ledger, u, Complete, Some(paid));
  }

  // Every paid upload that is stored in part can end so: complete with its receipt, and then
  // without one, its approval paused.
  lemma LateRecoveryOverwrites(g: Gateway, u: UploadId, paid: Receipt)
    requires Stored(g, u, paid)
    ensures var late, end := Run(g, LateEvents(u)[..6]).world.ledger, Run(g, LateEvents(u)).world.ledger;
      && u in late.uploads && late.uploads[u].state == Complete && late.uploads[u].result == Some(paid)
      && u in end.uploads && end.uploads[u].state == PaymentRecoveryRequired && end.uploads[u].result.None?
      && (end.uploads[u].approval in end.approvals ==> end.approvals[end.uploads[u].approval].state == Paused)
  {
    hide Apply, Live, HasTxOf;
    var events := LateEvents(u);
    forall k | 0 <= k < 7 ensures Run(g, events[..k + 1]) == Apply(Run(g, events[..k]), events[k]) {
      RunsOn(g, events, k);
    }
    assert events[..0] == [] && events[..7] == events;
    hide Run;
    LeavesPartial(g, u, paid);
    var partly := Run(g, events[..3]);
    assert partly == Apply(Apply(Apply(Run(g, events[..0]), events[0]), events[1]), events[2]);
    CompletesUnheard(partly, u, paid);
    var late := Run(g, events[..6]);
    assert late == Apply(Apply(Apply(partly, events[3]), events[4]), events[5]);
    GT.RecoveryWrite(late, u);
    assert Run(g, events[..7]) == Apply(late, events[6]);
    RecoveryKeepsTxs(late, u);
  }

  lemma RecoveryKeepsTxs(g: Gateway, u: UploadId)
    ensures Apply(g, FinishStep(u, true)).world.ledger.txs == g.world.ledger.txs
  {
    hide HasTxOf, HasStorageIntent;
  }

  // -- Such an upload, from nothing --

  const NETWORK := "network"
  const STORAGE_CAP := 7
  const GAS_CAP := 8

  function Digest(): string {
    seq(64, _ => 'a')
  }

  function Contents(): seq<ApprovedContent> {
    [ApprovedContent(Digest(), 3, "single")]
  }

  function Approval(): PaymentApproval {
    PaymentApproval("quote", ContentDigest(NETWORK, Contents()), NETWORK, 100, "7", "8", Contents())
  }

  function Upload(): UploadId {
    UploadId("quote", Digest(), "single")
  }

  function Key(): string {
    LeaseKey("job", "owner", 1)
  }

  function Payments(): seq<Payment> {
    [Payment("chunk", 7)]
  }

  // The allowance, then the one chunk.
  function BothCalls(): seq<Call> {
    [TokenApproval(7), WaveChunk(Payments())]
  }

  // One call from its reservation to its settlement, costing all it may.
  function CallEvents(tx: string, nonce: nat, hash: string, storage: nat): seq<Event> {
    [ReserveStep(Upload(), tx, nonce, 4), SignStep(Upload(), hash), SendStep(Upload()), MineStep(nonce, Mined(true, storage, 4)),
     SettleStep(Upload())]
  }

  function PaidEvents(): seq<Event> {
    [ApproveRequest(Approval()), ActivateRequest(PaymentLease("quote", "job", "owner", 1, 50)),
     UploadRequest("quote", Digest(), 3, "single", Key(), false), PayBegin(Upload(), Wave(Payments(), 7))]
    + CallEvents("first", 0, "a", 0) + CallEvents("second", 1, "b", 7) + [PayEnd(Upload())]
  }

  lemma ApprovalIsValid()
    ensures Approval().Validate(0, NETWORK) && Approval().Permits(Digest(), 3, "single")
    ensures Approval().StorageCap() == STORAGE_CAP && Approval().GasCap() == GAS_CAP
  {
    SmallAmount('7', 7);
    SmallAmount('8', 8);
    assert Contents()[0] == ApprovedContent(Digest(), 3, "single");
  }

  lemma SmallAmount(c: char, n: nat)
    requires IsDigit(c) && n == c as int - '0' as int
    ensures Amount([c]) == Some(n)
  {
    assert [c][..0] == "";
    assert Value([c]) == n;
  }

  // The journal while the two calls are made: `held` and `gas` are reserved, every row is settled.
  ghost predicate Between(g: Gateway, p: Phase, held: nat, gas: nat) {
    && Inv(g) && CS.At(g, Upload(), p) && p.stage.Idle? && g.now == 0 && g.resumes == map[]
    && g.world.ledger.network == NETWORK && !g.world.ledger.guard
    && g.world.ledger.approvals == map["quote" := ApprovalRow(Approval(), Open, held, gas)]
    && g.world.ledger.leases == map["quote" := LeaseRow("job", "owner", 1, 50)]
    && Upload() in g.world.ledger.uploads
    && g.world.ledger.uploads[Upload()].approval == "quote" && g.world.ledger.uploads[Upload()].leaseKey == Key()
    && (forall i :: 0 <= i < |g.world.ledger.txs| ==> g.world.ledger.txs[i].state == Settled)
  }

  // No row has this identity, nonce or hash yet.
  ghost predicate Fresh(txs: seq<TxRow>, tx: string, nonce: nat, hash: string) {
    forall i :: 0 <= i < |txs| ==> txs[i].id != tx && txs[i].nonce != nonce && txs[i].hash != Some(hash)
  }

  lemma PreparedCalls()
    ensures var prepared := Wave(Payments(), 7);
      StorageUpper(prepared) == Some(7) && Consistent(prepared) && Calls(prepared) == BothCalls()
  {
    assert Payments()[..0] == [];
  }

  lemma Admitted(g: Gateway)
    requires g == Run(Start(NETWORK, false, 0), PaidEvents()[..3])
    ensures g.world.ledger == Ledger(
      NETWORK, false, map["quote" := ApprovalRow(Approval(), Open, 0, 0)], map["quote" := LeaseRow("job", "owner", 1, 50)],
      map[Upload() := UploadRow("quote", Digest(), Key(), Preparing, None)], [])
    ensures g.now == 0 && g.resumes == map[] && g.lock.None?
    ensures g.running == map[Upload() := Task(0, Key(), Preparation)]
  {
    hide PaymentApproval.Validate, PaymentApproval.Permits, LeaseKey, HasTxOf, Run, Approve, Activate, Admit, DoUpload;
    var g0, events := Start(NETWORK, false, 0), PaidEvents();
    ApprovalIsValid();
    assert Run(g0, events[..0]) == g0 by { EmptyRun(g0, events); }
    RunsOn(g0, events, 0);
    RunsOn(g0, events, 1);
    RunsOn(g0, events, 2);
    var l0, g1, g2 := g0.world.ledger, Run(g0, events[..1]), Run(g0, events[..2]);
    JournalAdmits(l0);
    assert g1.world.ledger == Approve(l0, 0, Approval()).Tables(l0);
    assert g2.world.ledger == Activate(g1.world.ledger, 0, PaymentLease("quote", "job", "owner", 1, 50)).Tables(g1.world.ledger);
    UploadAdmitted(g2);
  }

  lemma EmptyRun(g: Gateway, events: seq<Event>)
    ensures Run(g, events[..0]) == g
  {
  }

  lemma JournalAdmits(l: Ledger)
    requires l == Ledger(NETWORK, false, map[], map[], map[], [])
    ensures var l1 := l.(approvals := map["quote" := ApprovalRow(Approval(), Open, 0, 0)]);
      var l2 := l1.(leases := map["quote" := LeaseRow("job", "owner", 1, 50)]);
      && Approve(l, 0, Approval()) == Done(l1, ())
      && Activate(l1, 0, PaymentLease("quote", "job", "owner", 1, 50)) == Done(l2, ())
      && Admit(l2, 0, Upload(), "quote", Digest(), 3, "single", Key())
         == Done(l2.(uploads := map[Upload() := UploadRow("quote", Digest(), Key(), Preparing, None)]), true)
  {
    hide PaymentApproval.Validate, PaymentApproval.Permits, LeaseKey;
    ApprovalIsValid();
  }

  lemma UploadAdmitted(g: Gateway)
    requires g.running == map[] && g.nextRun == 0
    ensures var e := UploadRequest("quote", Digest(), 3, "single", Key(), false); var o := Admission(g, e);
      o.Done? && o.value ==>
        Apply(g, e) == WithLedger(g, o.tables).(running := map[Upload() := Task(0, Key(), Preparation)], nextRun := 1)
  {
    hide Admit, LeaseKey;
    assert UploadId("quote", Digest(), "single") == Upload();
  }

  lemma Begun()
    ensures var g := Run(Start(NETWORK, false, 0), PaidEvents()[..4]);
      Between(g, Signing(BothCalls(), 0, Idle, Receipt(0, 0), []), 0, 0) && g.world.ledger.txs == []
  {
    hide Inv, Run, Apply, StorageUpper, Consistent, Calls, PaymentApproval.Validate, PaymentApproval.StorageCap;
    var g0, events := Start(NETWORK, false, 0), PaidEvents();
    var g := Run(g0, events[..3]);
    Admitted(g);
    RunsOn(g0, events, 3);
    PreparedCalls();
    ApprovalIsValid();
    CS.Begins(g, Upload(), Wave(Payments(), 7));
    OnlyMemory(g, Wave(Payments(), 7));
    assert CheckStorage(g.world.ledger, 0, "quote", 7).Ok?;
    GatewayInvariant.StartOk(NETWORK, false, 0);
    RunKeeps(g0, events[..4]);
  }

  lemma OnlyMemory(g: Gateway, prepared: Prepared)
    ensures Apply(g, PayBegin(Upload(), prepared)).resumes == g.resumes
  {
    hide CheckStorage, StorageUpper, Calls, Consistent;
  }

  function CallRow(p: Phase, tx: string, nonce: nat): TxRow
    requires p.Signing? && p.next < |p.calls|
  {
    TxRow(tx, None, Upload(), "quote", NETWORK, nonce, Upper(p.calls[p.next]), 4, Reserved, None)
  }

  ghost predicate Payable(l: Ledger, held: nat, gas: nat) {
    && l.network == NETWORK && !l.guard
    && l.approvals == map["quote" := ApprovalRow(Approval(), Open, held, gas)]
    && l.leases == map["quote" := LeaseRow("job", "owner", 1, 50)]
    && Upload() in l.uploads && l.uploads[Upload()].approval == "quote" && l.uploads[Upload()].leaseKey == Key()
    && (forall i :: 0 <= i < |l.txs| ==> l.txs[i].state == Settled)
  }

  // The three statements of one call, at time 0, when the receipt charges all that was reserved.
  lemma JournalCall(l: Ledger, held: nat, gas: nat, t: TxRow, hash: string)
    requires Payable(l, held, gas)
    requires t == TxRow(t.id, None, Upload(), "quote", NETWORK, t.nonce, t.storageReserved, 4, Reserved, None)
    requires Fresh(l.txs, t.id, t.nonce, hash) && t.nonce < NONCE_LIMIT
    requires held + t.storageReserved <= STORAGE_CAP && gas + 4 <= GAS_CAP
    ensures var r := Reservation("quote", Upload(), t.id, t.nonce, t.storageReserved, 4);
      var l1 := l.(txs := l.txs + [t], approvals := map["quote" := ApprovalRow(Approval(), Open, held + t.storageReserved, gas + 4)],
                   uploads := l.uploads[Upload() := l.uploads[Upload()].(state := Paying)]);
      var signed := t.(hash := Some(hash), state := Signed);
      var l2 := l1.(txs := l.txs + [signed]);
      var l3 := l1.(txs := l.txs + [signed.(state := Settled, charge := Some(Charge(t.storageReserved, 4)))]);
      && Reserve(l, 0, r) == Done(l1, ())
      && RecordSigned(l1, 0, t.id, hash) == Done(l2, ())
      && Settle(l2, hash, t.storageReserved, 4) == Done(l3, ())
  {
    hide LeaseKey, PaymentApproval.Validate, PaymentApproval.StorageCap, PaymentApproval.GasCap;
    ApprovalIsValid();
    assert (l.txs + [t])[..|l.txs|] == l.txs;
    var signed := t.(hash := Some(hash), state := Signed);
    assert (l.txs + [t])[|l.txs| := signed] == l.txs + [signed];
    assert (l.txs + [signed])[..|l.txs|] == l.txs;
    var settled := signed.(state := Settled, charge := Some(Charge(t.storageReserved, 4)));
    assert (l.txs + [signed])[|l.txs| := settled] == l.txs + [settled];
  }

  lemma SigningKeepsSessions(g: Gateway, e: Event)
    requires e.ReserveStep? || e.SignStep? || e.SendStep? || e.MineStep? || e.SettleStep?
    ensures Apply(g, e).resumes == g.resumes
  {
    hide Reserve, RecordSigned, Settle, SettledStorage, ChainAllows, Upper, NewTx;
  }

  // The row of a call while its bytes are signed, and once they are settled.
  function SignedRow(p: Phase, tx: string, nonce: nat, hash: string): TxRow
    requires p.Signing? && p.next < |p.calls|
  {
    CallRow(p, tx, nonce).(hash := Some(hash), state := Signed)
  }

  function SettledRow(p: Phase, tx: string, nonce: nat, hash: string): TxRow
    requires p.Signing? && p.next < |p.calls|
  {
    SignedRow(p, tx, nonce, hash).(state := Settled, charge := Some(Charge(Upper(p.calls[p.next]), 4)))
  }

  // The call is reserved and signed.
  ghost predicate CallSigned(g: Gateway, l: Ledger, h: Gateway, p: Phase, held: nat, gas: nat, tx: string, nonce: nat, hash: string)
    requires p.Signing? && p.next < |p.calls| && Upload() in l.uploads
  {
    && Inv(h) && CS.At(h, Upload(), p.(stage := Recorded(nonce))) && h.now == 0 && h.resumes == map[]
    && h.world.ledger == l.(
         txs := l.txs + [SignedRow(p, tx, nonce, hash)],
         approvals := map["quote" := ApprovalRow(Approval(), Open, held + Upper(p.calls[p.next]), gas + 4)],
         uploads := l.uploads[Upload() := l.uploads[Upload()].(state := Paying)])
    && Reference(NETWORK, hash) !in h.world.mined
  }

  lemma {:induction false} CallIsSigned(g: Gateway, p: Phase, held: nat, gas: nat, tx: string, nonce: nat, hash: string)
    requires Between(g, p, held, gas) && p.next < |p.calls|
    requires Fresh(g.world.ledger.txs, tx, nonce, hash) && nonce == |g.world.ledger.txs| && nonce < NONCE_LIMIT
    requires held + Upper(p.calls[p.next]) <= STORAGE_CAP && gas + 4 <= GAS_CAP
    ensures var h := Apply(Apply(g, ReserveStep(Upload(), tx, nonce, 4)), SignStep(Upload(), hash));
      CallSigned(g, g.world.ledger, h, p, held, gas, tx, nonce, hash)
  {
    hide Inv, Apply, Upper, Reserve, RecordSigned, Settle, LeaseKey;
    var a := CS.Answers(None, 0, 0, tx, nonce, 4, hash, None, true);
    var reserve, sign := ReserveStep(Upload(), tx, nonce, 4), SignStep(Upload(), hash);
    JournalCall(g.world.ledger, held, gas, CallRow(p, tx, nonce), hash);
    CS.Reserves(g, Upload(), p, a);
    var g1 := Apply(g, reserve);
    SigningKeepsSessions(g, reserve);
    StepKeeps(g, reserve);
    CS.Signs(g1, Upload(), p.(stage := Intended(nonce)), nonce, tx, hash);
    SigningKeepsSessions(g1, sign);
    StepKeeps(g1, sign);
  }

  lemma {:induction false} CallIsSettled(g: Gateway, l: Ledger, h: Gateway, p: Phase, held: nat, gas: nat, tx: string, nonce: nat, hash: string)
    requires Payable(l, held, gas) && p.Signing? && p.next < |p.calls| && p.stage.Idle?
    requires Fresh(l.txs, tx, nonce, hash) && nonce == |l.txs| && nonce < NONCE_LIMIT
    requires held + Upper(p.calls[p.next]) <= STORAGE_CAP && gas + 4 <= GAS_CAP
    requires CallSigned(g, l, h, p, held, gas, tx, nonce, hash)
    requires ChainAllows(p.calls[p.next], Mined(true, Upper(p.calls[p.next]), 4))
    requires SettledStorage(p.calls[p.next], Mined(true, Upper(p.calls[p.next]), 4)) == Upper(p.calls[p.next])
    ensures var m := Mined(true, Upper(p.calls[p.next]), 4);
      var end := Apply(Apply(Apply(h, SendStep(Upload())), MineStep(nonce, m)), SettleStep(Upload()));
      && Between(end, CS.AfterCall(p, m, hash), held + Upper(p.calls[p.next]), gas + 4)
      && end.world.ledger.txs == l.txs + [SettledRow(p, tx, nonce, hash)]
  {
    hide Inv, Apply, Upper, ChainAllows, SettledStorage, Reserve, RecordSigned, Settle, LeaseKey;
    var m := Mined(true, Upper(p.calls[p.next]), 4);
    JournalCall(l, held, gas, CallRow(p, tx, nonce), hash);
    CS.Sends(h, Upload(), p.(stage := Recorded(nonce)), nonce);
    var h1 := Apply(h, SendStep(Upload()));
    SigningKeepsSessions(h, SendStep(Upload()));
    StepKeeps(h, SendStep(Upload()));
    CS.Mines(h1, Upload(), p.(stage := Sent(nonce)), nonce, m);
    var h2 := Apply(h1, MineStep(nonce, m));
    SigningKeepsSessions(h1, MineStep(nonce, m));
    StepKeeps(h1, MineStep(nonce, m));
    CS.Settles(h2, Upload(), p.(stage := Sent(nonce)), nonce, m, hash);
    SigningKeepsSessions(h2, SettleStep(Upload()));
    StepKeeps(h2, SettleStep(Upload()));
    CS.AfterIsSame(p, nonce, m, hash);
    assert CS.AfterCall(p, m, hash).stage.Idle?;
  }

  lemma {:induction false} FiveSteps(g: Gateway, a: Event, b: Event, c: Event, d: Event, e: Event)
    ensures Run(g, [a, b, c, d, e]) == Apply(Apply(Apply(Apply(Apply(g, a), b), c), d), e)
  {
    hide Apply;
    var events := [a, b, c, d, e];
    EmptyRun(g, events);
    RunsOn(g, events, 0);
    RunsOn(g, events, 1);
    RunsOn(g, events, 2);
    RunsOn(g, events, 3);
    RunsOn(g, events, 4);
    assert events[..5] == events;
  }

  // One call of `pay`, costing its bounds.
  lemma {:induction false} CallMade(g: Gateway, p: Phase, held: nat, gas: nat, tx: string, nonce: nat, hash: string)
    requires Between(g, p, held, gas) && p.next < |p.calls|
    requires Fresh(g.world.ledger.txs, tx, nonce, hash) && nonce == |g.world.ledger.txs| && nonce < NONCE_LIMIT
    requires held + Upper(p.calls[p.next]) <= STORAGE_CAP && gas + 4 <= GAS_CAP
    requires ChainAllows(p.calls[p.next], Mined(true, Upper(p.calls[p.next]), 4))
    requires SettledStorage(p.calls[p.next], Mined(true, Upper(p.calls[p.next]), 4)) == Upper(p.calls[p.next])
    ensures var m := Mined(true, Upper(p.calls[p.next]), 4);
      var h := Run(g, CallEvents(tx, nonce, hash, Upper(p.calls[p.next])));
      && Between(h, CS.AfterCall(p, m, hash), held + Upper(p.calls[p.next]), gas + 4)
      && h.world.ledger.txs == g.world.ledger.txs + [SettledRow(p, tx, nonce, hash)]
  {
    hide Inv, Run, Apply, Upper, ChainAllows, SettledStorage, LeaseKey, CallSigned;
    var storage := Upper(p.calls[p.next]);
    CallIsSigned(g, p, held, gas, tx, nonce, hash);
    var h := Apply(Apply(g, ReserveStep(Upload(), tx, nonce, 4)), SignStep(Upload(), hash));
    CallIsSettled(g, g.world.ledger, h, p, held, gas, tx, nonce, hash);
    FiveSteps(g, ReserveStep(Upload(), tx, nonce, 4), SignStep(Upload(), hash), SendStep(Upload()),
              MineStep(nonce, Mined(true, storage, 4)), SettleStep(Upload()));
  }

  lemma RunConcat(g: Gateway, a: seq<Event>, b: seq<Event>)
    ensures Run(g, a + b) == Run(Run(g, a), b)
  {
    hide Apply;
    if |b| == 0 {
      assert a + b == a;
    } else {
      RunConcat(g, a, b[..|b| - 1]);
      assert (a + b)[..|a + b| - 1] == a + b[..|b| - 1];
    }
  }

  lemma PaidByBoth()
    ensures var g := Run(Start(NETWORK, false, 0), PaidEvents());
      Stored(g, Upload(), Receipt(7, 8)) && Inv(g)
  {
    hide Inv, Run, Apply, LeaseKey;
    var g0, events := Start(NETWORK, false, 0), PaidEvents();
    var first, second := CallEvents("first", 0, "a", 0), CallEvents("second", 1, "b", 7);
    var p := Signing(BothCalls(), 0, Idle, Receipt(0, 0), []);
    Begun();
    var g4 := Run(g0, events[..4]);
    assert Payments()[..0] == [];
    CallMade(g4, p, 0, 0, "first", 0, "a");
    var g9 := Run(g4, first);
    var q := CS.AfterCall(p, Mined(true, 0, 4), "a");
    CallMade(g9, q, 0, 4, "second", 1, "b");
    var g14 := Run(g9, second);
    assert events == events[..4] + first + second + [PayEnd(Upload())];
    RunConcat(g0, events[..4] + first + second, [PayEnd(Upload())]);
    RunConcat(g0, events[..4] + first, second);
    RunConcat(g0, events[..4], first);
    OneStep(g14, PayEnd(Upload()));
    PayEnds(g14, CS.AfterCall(q, Mined(true, 7, 4), "b"), Receipt(7, 8));
    StartOk(NETWORK, false, 0);
    RunKeeps(g0, events);
  }

  lemma OneStep(g: Gateway, e: Event)
    ensures Run(g, [e]) == Apply(g, e)
  {
    hide Apply;
    assert [e][..0] == [];
  }

  lemma PayEnds(g: Gateway, p: Phase, paid: Receipt)
    requires CS.At(g, Upload(), p) && p.next == |p.calls| && p.paid == paid
    requires g.resumes == map[] && Upload() in g.world.ledger.uploads
    requires |g.world.ledger.txs| > 0 && g.world.ledger.txs[0].upload == Upload()
    ensures Stored(Apply(g, PayEnd(Upload())), Upload(), paid)
  {
    var h := Apply(g, PayEnd(Upload()));
    assert h.world == g.world && h.resumes == g.resumes && h.running[Upload()].phase == Storing(paid, false);
    hide Apply;
    assert Live(map[], h.now) == map[];
    assert HasTxOf(h.world.ledger.txs, Upload());
  }

  // The witness: a run from an empty gateway after which a completed upload has lost its result and
  // its approval is paused.
  lemma LateRecoveryHappens()
    ensures var late := Run(Start(NETWORK, false, 0), PaidEvents() + LateEvents(Upload())[..6]).world.ledger;
      var end := Run(Start(NETWORK, false, 0), PaidEvents() + LateEvents(Upload())).world.ledger;
      && Upload() in late.uploads && late.uploads[Upload()] == late.uploads[Upload()].(state := Complete, result := Some(Receipt(7, 8)))
      && Upload() in end.uploads && end.uploads[Upload()] == end.uploads[Upload()].(state := PaymentRecoveryRequired, result := None)
      && "quote" in end.approvals && end.approvals["quote"].state == Paused
  {
    hide Run, Stored, PaidEvents, Inv;
    PaidByBoth();
    var g := Run(Start(NETWORK, false, 0), PaidEvents());
    LateRecoveryOverwrites(g, Upload(), Receipt(7, 8));
    RunConcat(Start(NETWORK, false, 0), PaidEvents(), LateEvents(Upload())[..6]);
    RunConcat(Start(NETWORK, false, 0), PaidEvents(), LateEvents(Upload()));
    RunKeeps(g, LateEvents(Upload()));
    OwnApproval(Run(g, LateEvents(Upload())), Upload());
  }

  lemma OwnApproval(g: Gateway, u: UploadId)
    requires Inv(g) && u in g.world.ledger.uploads
    ensures g.world.ledger.uploads[u].approval == u.approval && u.approval in g.world.ledger.approvals
  {
    hide OriginsOrdered, RowOk, Journaled, TasksOk, SessionsOk, CompletesOk, LI.TxsOk, LI.ApprovalsOk;
    assert LI.UploadOk(g.world.ledger, u);
  }
}
