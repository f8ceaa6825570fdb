// `pay` as the controlled signer runs it: its loops over the journal, each statement matched by a
// step of the gateway machine. What other tasks do meanwhile is left to the machine; here the
// signer, which holds its lock, is followed from the first statement to the last.
module ControlledSigner {
  import opened Outcomes
  import opened Contract
  import opened Ledger
  import opened Signer
  import opened Gateway
  import opened GatewayInvariant
  import opened GatewaySteps
  import opened GatewaySigning
  import LI = LedgerInvariant
  import JS = JournalStore

  // What the provider answers for one transaction. `unready` is an error before the reservation: a
  // changed chain, fees, the nonce or the gas estimate. Then the clock at the reservation and at the
  // signature, the fee bound, the hash of the signed bytes, and the receipt, if it comes. `accepted`
  // is whether it names this transaction, its gas is in range and, for a merkle payment that
  // succeeded, it holds exactly one matching event with a listed winner.
  datatype Answers = Answers(
    unready: Option<ErrorClass>,
    reserveAt: int,
    signAt: int,
    tx: string,
    nonce: nat,
    gasUpper: nat,
    hash: string,
    receipt: Option<Mined>,
    accepted: bool)

  datatype Paid = Paid(receipt: Receipt, proofs: map<string, string>)

  // -- Runs --

  ghost predicate Reaches(g: Gateway, h: Gateway) {
    exists events :: h == Run(g, events)
  }

  lemma ReachesSelf(g: Gateway)
    ensures Reaches(g, g)
  {
    assert g == Run(g, []);
  }

  lemma ReachesStep(g: Gateway, h: Gateway, e: Event)
    requires Reaches(g, h)
    ensures Reaches(g, Apply(h, e))
  {
    hide Apply;
    var events :| h == Run(g, events);
    assert (events + [e])[..|events|] == events;
    assert Apply(h, e) == Run(g, events + [e]);
  }

  // -- Where the signer stands --

  // The signer is at call `k`; `paid` and `hashes` are what the calls before it left.
  ghost predicate At(g: Gateway, id: UploadId, p: Phase) {
    id in g.running && g.lock == Some(id) && p.Signing? && g.running[id].phase == p
  }

  ghost predicate Stopped(g: Gateway, id: UploadId, c: ErrorClass) {
    id in g.running && g.running[id].phase == Failing(c, false) && g.lock.None?
  }

  // -- What each statement does to the machine --

  lemma Ticks(g: Gateway, to: int)
    ensures Apply(g, Tick(to)) == g.(now := if to > g.now then to else g.now)
  {
  }

  function Wanted(id: UploadId, p: Phase, a: Answers): Reservation
    requires p.Signing? && p.next < |p.calls|
  {
    Reservation(id.approval, id, a.tx, a.nonce, Upper(p.calls[p.next]), a.gasUpper)
  }

  lemma Reserves(g: Gateway, id: UploadId, p: Phase, a: Answers)
    requires At(g, id, p) && p.stage.Idle? && p.next < |p.calls|
    ensures var h := Apply(g, ReserveStep(id, a.tx, a.nonce, a.gasUpper));
      var o := Reserve(g.world.ledger, g.now, Wanted(id, p, a));
      && h.world.ledger == o.Tables(g.world.ledger) && h.now == g.now
      && (o.Failed? ==> Stopped(h, id, ClassOf(o.error)))
      && (o.Done? ==>
            && At(h, id, p.(stage := Intended(|g.world.ledger.txs|)))
            && h.world.ledger.txs == g.world.ledger.txs + [NewTx(g.world.ledger, Wanted(id, p, a))]
            && h.world.ledger.network == g.world.ledger.network)
  {
    ReserveShape(g.world.ledger, g.now, Wanted(id, p, a));
    hide Reserve, Upper;
    assert Apply(g, ReserveStep(id, a.tx, a.nonce, a.gasUpper)) == DoReserve(g, id, a.tx, a.nonce, a.gasUpper);
    hide Apply;
  }

  lemma {:induction false} Signs(g: Gateway, id: UploadId, p: Phase, i: nat, tx: string, hash: string)
    requires Inv(g) && At(g, id, p) && p.next < |p.calls| && p.stage == Intended(i)
    requires i < |g.world.ledger.txs| && g.world.ledger.txs[i].id == tx
    ensures var h := Apply(g, SignStep(id, hash));
      var o := RecordSigned(g.world.ledger, g.now, tx, hash);
      && h.world.ledger == o.Tables(g.world.ledger) && h.now == g.now
      && (o.Failed? ==> Stopped(h, id, ClassOf(o.error)))
      && (o.Done? ==>
            && At(h, id, p.(stage := Recorded(i)))
            && i < |h.world.ledger.txs| && h.world.ledger.txs[i].hash == Some(hash)
            && h.world.ledger.network == g.world.ledger.network == h.world.ledger.txs[i].network
            && RefOf(h.world.ledger.txs[i]) !in h.world.mined)
  {
    hide Inv, LI.Inv, LI.RowsIndependent, SigningOk, WorldOk;
    Parts(g);
    LedgerRow(g.world.ledger, i);
    SigningTask(g, id);
    StageRow(g.world, id, g.running[id].run, p);
    SignShape(g.world.ledger, g.now, i, hash);
    if RecordSigned(g.world.ledger, g.now, tx, hash).Done? {
      FreshHash(g.world, g.world.ledger.network, hash);
    }
    hide RecordSigned;
    assert Apply(g, SignStep(id, hash)) == DoSign(g, id, i, hash);
    hide Apply;
  }

  lemma Sends(g: Gateway, id: UploadId, p: Phase, i: nat)
    requires At(g, id, p) && p.next < |p.calls| && p.stage == Recorded(i)
    requires i < |g.world.ledger.txs| && g.world.ledger.txs[i].hash.Some?
    ensures var h := Apply(g, SendStep(id));
      && At(h, id, p.(stage := Sent(i))) && h.now == g.now
      && h.world == g.world.(broadcast := g.world.broadcast + {RefOf(g.world.ledger.txs[i])})
  {
  }

  lemma Mines(g: Gateway, id: UploadId, p: Phase, i: nat, m: Mined)
    requires Inv(g) && At(g, id, p) && p.next < |p.calls| && p.stage == Sent(i)
    requires i < |g.world.ledger.txs| && g.world.ledger.txs[i].hash.Some?
    requires RefOf(g.world.ledger.txs[i]) in g.world.broadcast && RefOf(g.world.ledger.txs[i]) !in g.world.mined
    requires ChainAllows(p.calls[p.next], m)
    ensures var h := Apply(g, MineStep(i, m));
      At(h, id, p) && h.now == g.now && h.world == g.world.(mined := g.world.mined[RefOf(g.world.ledger.txs[i]) := m])
  {
    hide Inv, SigningOk, ChainAllows;
    SigningTask(g, id);
    StageRow(g.world, id, g.running[id].run, p);
  }

  function AfterCall(p: Phase, m: Mined, hash: string): Phase
    requires p.Signing? && p.next < |p.calls|
  {
    var storage := SettledStorage(p.calls[p.next], m);
    p.(next := p.next + 1, stage := Idle, paid := Receipt(p.paid.storage + storage, p.paid.gas + m.gas), hashes := p.hashes + [hash])
  }

  lemma Settles(g: Gateway, id: UploadId, p: Phase, i: nat, m: Mined, hash: string)
    requires At(g, id, p) && p.next < |p.calls| && p.stage == Sent(i)
    requires i < |g.world.ledger.txs| && g.world.ledger.txs[i].hash == Some(hash)
    requires RefOf(g.world.ledger.txs[i]) in g.world.mined && g.world.mined[RefOf(g.world.ledger.txs[i])] == m
    ensures var h := Apply(g, SettleStep(id));
      var o := Settle(g.world.ledger, hash, SettledStorage(p.calls[p.next], m), m.gas);
      && h.world.ledger == o.Tables(g.world.ledger) && h.now == g.now
      && (o.Failed? ==> Stopped(h, id, ClassOf(o.error)))
      && (o.Done? && !m.success ==> Stopped(h, id, NeedsRecovery))
      && (o.Done? && m.success ==> At(h, id, AfterCall(p, m, hash)))
  {
    hide Settle, SettledStorage;
    assert Apply(g, SettleStep(id)) == DoSettle(g, id, i, m);
    hide Apply;
  }

  lemma Aborts(g: Gateway, id: UploadId, p: Phase, c: ErrorClass)
    requires At(g, id, p) && c != IsPartial
    ensures var h := Apply(g, Abort(id, c));
      Stopped(h, id, c) && h.world == g.world && h.now == g.now
  {
  }

  // -- The methods --

  // The machine's state after a method, and that it got there by steps of its own.
  ghost predicate Followed(g: Gateway, h: Gateway, tables: Ledger, now: int) {
    Inv(h) && Reaches(g, h) && h.world.ledger == tables && h.now == now
  }

  lemma {:induction false} Follow(g: Gateway, h: Gateway, e: Event)
    requires Inv(h) && Reaches(g, h)
    ensures Inv(Apply(h, e)) && Reaches(g, Apply(h, e))
  {
    hide Inv, Apply, Reaches;
    StepKeeps(h, e);
    ReachesStep(g, h, e);
  }

  // The signed bytes of the current call are in row i, and have not been mined.
  ghost predicate Signed(h: Gateway, id: UploadId, p: Phase, i: nat, hash: string)
    requires p.Signing?
  {
    && At(h, id, p.(stage := Recorded(i)))
    && i < |h.world.ledger.txs| && h.world.ledger.txs[i].hash == Some(hash)
    && RefOf(h.world.ledger.txs[i]) !in h.world.mined
  }

  // The first half of `transact`: prepare, reserve, sign, record.
  method SignCall(j: JS.Journal, id: UploadId, call: Call, a: Answers, start: int, ghost origin: Gateway, ghost g: Gateway, ghost p: Phase)
    returns (r: Result<(), ErrorClass>, now: int, ghost h: Gateway, ghost i: nat)
    requires j.Valid()
    requires Followed(origin, g, j.Tables(), start)
    requires At(g, id, p) && p.stage.Idle? && p.next < |p.calls| && p.calls[p.next] == call
    requires a.unready != Some(IsPartial)
    modifies j
    ensures j.Valid() && Followed(origin, h, j.Tables(), now)
    ensures a.unready.Some? ==> r == Err(a.unready.value) && j.Tables() == old(j.Tables())
    ensures r.Ok? ==> Signed(h, id, p, i, a.hash) && h.world.ledger.txs[i].network == h.world.ledger.network
    ensures r.Err? ==> Stopped(h, id, r.error)
  {
    hide Inv, LI.Inv, Apply, Reaches, Stopped, Reserve, RecordSigned, Upper;
    i := |j.txs|;
    if a.unready.Some? {
      Aborts(g, id, p, a.unready.value);
      Follow(origin, g, Abort(id, a.unready.value));
      return Err(a.unready.value), start, Apply(g, Abort(id, a.unready.value)), i;
    }
    now := if a.reserveAt > start then a.reserveAt else start;
    h := Apply(g, Tick(a.reserveAt));
    Ticks(g, a.reserveAt);
    Follow(origin, g, Tick(a.reserveAt));
    AtTask(h, id);
    var reserved := j.Reserve(now, Reservation(id.approval, id, a.tx, a.nonce, Upper(call), a.gasUpper));
    Reserves(h, id, p, a);
    Follow(origin, h, ReserveStep(id, a.tx, a.nonce, a.gasUpper));
    h := Apply(h, ReserveStep(id, a.tx, a.nonce, a.gasUpper));
    if reserved.Err? {
      return Err(ClassOf(reserved.error)), now, h, i;
    }
    now := if a.signAt > now then a.signAt else now;
    Ticks(h, a.signAt);
    Follow(origin, h, Tick(a.signAt));
    h := Apply(h, Tick(a.signAt));
    var signed := j.RecordSigned(now, a.tx, a.hash);
    Signs(h, id, p.(stage := Intended(i)), i, a.tx, a.hash);
    Follow(origin, h, SignStep(id, a.hash));
    h := Apply(h, SignStep(id, a.hash));
    if signed.Err? {
      return Err(ClassOf(signed.error)), now, h, i;
    }
    r := Ok(());
  }

  // `transact` and the settlement that follows it: sign, broadcast, wait for the receipt, settle.
  method Transact(j: JS.Journal, id: UploadId, call: Call, a: Answers, start: int, ghost origin: Gateway, ghost g: Gateway, ghost p: Phase)
    returns (r: Result<Mined, ErrorClass>, now: int, ghost h: Gateway)
    requires j.Valid()
    requires Followed(origin, g, j.Tables(), start)
    requires At(g, id, p) && p.stage.Idle? && p.next < |p.calls| && p.calls[p.next] == call
    requires a.receipt.Some? ==> ChainAllows(call, a.receipt.value)
    requires a.unready != Some(IsPartial)
    modifies j
    ensures j.Valid() && Followed(origin, h, j.Tables(), now)
    ensures a.unready.Some? ==> r == Err(a.unready.value) && j.Tables() == old(j.Tables())
    ensures r.Ok? ==> a.accepted && Some(r.value) == a.receipt
    ensures r.Ok? ==> At(h, id, AfterCall(p, r.value, a.hash)) && r.value.success
    ensures r.Err? ==> Stopped(h, id, r.error)
  {
    hide Inv, LI.Inv, Apply, Reaches, Stopped, AfterCall, ChainAllows, SettledStorage, Settle;
    var signed;
    ghost var i: nat;
    signed, now, h, i := SignCall(j, id, call, a, start, origin, g, p);
    if signed.Err? {
      return Err(signed.error), now, h;
    }
    Sends(h, id, p.(stage := Recorded(i)), i);
    Follow(origin, h, SendStep(id));
    h := Apply(h, SendStep(id));
    if a.receipt.None? {
      Aborts(h, id, p.(stage := Sent(i)), NeedsRecovery);
      Follow(origin, h, Abort(id, NeedsRecovery));
      h := Apply(h, Abort(id, NeedsRecovery));
      return Err(NeedsRecovery), now, h;
    }
    var m := a.receipt.value;
    Mines(h, id, p.(stage := Sent(i)), i, m);
    Follow(origin, h, MineStep(i, m));
    h := Apply(h, MineStep(i, m));
    if !a.accepted {
      Aborts(h, id, p.(stage := Sent(i)), NeedsRecovery);
      Follow(origin, h, Abort(id, NeedsRecovery));
      h := Apply(h, Abort(id, NeedsRecovery));
      return Err(NeedsRecovery), now, h;
    }
    var settled := j.Settle(a.hash, SettledStorage(call, m), m.gas);
    Settles(h, id, p.(stage := Sent(i)), i, m, a.hash);
    Follow(origin, h, SettleStep(id));
    h := Apply(h, SettleStep(id));
    if settled.Err? {
      return Err(ClassOf(settled.error)), now, h;
    }
    if !m.success {
      return Err(NeedsRecovery), now, h;
    }
    AfterIsSame(p, i, m, a.hash);
    r := Ok(m);
  }

  lemma AfterIsSame(p: Phase, i: nat, m: Mined, hash: string)
    requires p.Signing? && p.next < |p.calls|
    ensures AfterCall(p.(stage := Sent(i)), m, hash) == AfterCall(p, m, hash)
  {
  }

  // The upload a run of `pay` reserves for was admitted under the approval it charges.
  lemma AtTask(g: Gateway, id: UploadId)
    requires Inv(g) && id in g.running && g.running[id].phase.Signing?
    ensures id in g.world.ledger.uploads && g.world.ledger.uploads[id].approval == id.approval
  {
    hide Inv, SigningOk;
    SigningTask(g, id);
  }

  // -- The loops of `pay` --

  lemma Begins(g: Gateway, id: UploadId, prepared: Prepared)
    requires id in g.running && g.running[id].phase.Preparation? && g.lock.None? && Consistent(prepared)
    ensures var h := Apply(g, PayBegin(id, prepared)); var upper := StorageUpper(prepared);
      && h.world == g.world && h.now == g.now
      && (upper.None? ==> Stopped(h, id, NeedsRecovery))
      && (upper.Some? ==>
            var checked := CheckStorage(g.world.ledger, g.now, id.approval, upper.value);
            && (checked.Err? ==> Stopped(h, id, ClassOf(checked.error)))
            && (checked.Ok? ==> At(h, id, Signing(Calls(prepared), 0, Idle, Receipt(0, 0), []))))
  {
    hide StorageUpper, CheckStorage, Calls, Consistent;
  }

  // Each call gets an answer the chain can give; an error is never that of a partial upload.
  ghost predicate ChainFair(calls: seq<Call>, answers: seq<Answers>) {
    && |answers| == |calls|
    && (forall k :: 0 <= k < |calls| ==> AnswerFair(calls[k], answers[k]))
  }

  ghost predicate AnswerFair(c: Call, a: Answers) {
    a.unready != Some(IsPartial) && (a.receipt.Some? ==> ChainAllows(c, a.receipt.value))
  }

  // `pay` before its next call; the proofs so far are those of the calls made.
  ghost predicate Midway(h: Gateway, id: UploadId, calls: seq<Call>, k: nat, paid: Receipt, proofs: map<string, string>, hashes: seq<string>) {
    && k <= |calls| && |hashes| == k
    && At(h, id, Signing(calls, k, Idle, paid, hashes))
    && proofs == ProofMap(calls[..k], hashes)
  }

  lemma RecordOne(before: map<string, string>, payments: seq<Payment>, i: nat, hash: string)
    requires i < |payments|
    ensures Record(before, payments[..i + 1], hash) == Record(before, payments[..i], hash)[payments[i].quoteHash := hash]
  {
    var front, one := payments[..i], payments[i];
    assert payments[..i + 1] == front + [one];
    forall p ensures p in front + [one] <==> p in front || p == one {
    }
  }

  method RecordProofs(before: map<string, string>, payments: seq<Payment>, hash: string) returns (proofs: map<string, string>)
    ensures proofs == Record(before, payments, hash)
  {
    proofs := before;
    for i := 0 to |payments|
      invariant proofs == Record(before, payments[..i], hash)
    {
      RecordOne(before, payments, i, hash);
      hide Record;
      proofs := proofs[payments[i].quoteHash := hash];
    }
    assert payments[..|payments|] == payments;
  }

  lemma ProofStep(calls: seq<Call>, k: nat, hashes: seq<string>, hash: string)
    requires k < |calls| && |hashes| == k
    ensures ProofMap(calls[..k + 1], hashes + [hash]) ==
      if calls[k].WaveChunk? then Record(ProofMap(calls[..k], hashes), calls[k].payments, hash) else ProofMap(calls[..k], hashes)
  {
    assert calls[..k + 1][..k] == calls[..k] && (hashes + [hash])[..k] == hashes;
  }

  // One call: its transaction, its totals and, for a chunk, the proofs of its payments.
  method PayCall(j: JS.Journal, id: UploadId, call: Call, a: Answers, paid: Receipt, proofs: map<string, string>, start: int,
                 ghost calls: seq<Call>, ghost k: nat, ghost hashes: seq<string>, ghost origin: Gateway, ghost g: Gateway)
    returns (r: Result<Paid, ErrorClass>, now: int, ghost h: Gateway)
    requires j.Valid()
    requires Followed(origin, g, j.Tables(), start)
    requires Midway(g, id, calls, k, paid, proofs, hashes) && k < |calls| && calls[k] == call
    requires a.receipt.Some? ==> ChainAllows(call, a.receipt.value)
    requires a.unready != Some(IsPartial)
    modifies j
    ensures j.Valid() && Followed(origin, h, j.Tables(), now)
    ensures r.Ok? ==> Midway(h, id, calls, k + 1, r.value.receipt, r.value.proofs, hashes + [a.hash])
    ensures r.Err? ==> Stopped(h, id, r.error)
  {
    hide Inv, LI.Inv, Reaches, Stopped, ChainAllows, SettledStorage, ProofMap, Record;
    ghost var p := Signing(calls, k, Idle, paid, hashes);
    var t;
    t, now, h := Transact(j, id, call, a, start, origin, g, p);
    if t.Err? {
      return Err(t.error), now, h;
    }
    var m := t.value;
    ProofStep(calls, k, hashes, a.hash);
    var after := proofs;
    if call.WaveChunk? {
      after := RecordProofs(proofs, call.payments, a.hash);
    }
    r := Ok(Paid(Receipt(paid.storage + SettledStorage(call, m), paid.gas + m.gas), after));
  }

  // Everything `pay` has to do was done: totals and proofs are those the gateway's task holds.
  ghost predicate AllPaid(h: Gateway, id: UploadId, prepared: Prepared, paid: Paid) {
    exists hashes :: Midway(h, id, Calls(prepared), |Calls(prepared)|, paid.receipt, paid.proofs, hashes)
  }

  lemma ChunksStep(payments: seq<Payment>)
    requires payments != []
    ensures var n := if |payments| < MAX_TRANSFERS then |payments| else MAX_TRANSFERS;
      Chunks(payments) == [WaveChunk(payments[..n])] + Chunks(payments[n..])
  {
    if |payments| <= MAX_TRANSFERS {
      assert payments[..|payments|] == payments && payments[|payments|..] == [];
    }
  }

  method PayWave(j: JS.Journal, id: UploadId, payments: seq<Payment>, answers: seq<Answers>, first: nat, before: Paid, start: int,
                 ghost calls: seq<Call>, ghost hashes: seq<string>, ghost origin: Gateway, ghost g: Gateway)
    returns (r: Result<Paid, ErrorClass>, now: int, ghost h: Gateway, ghost hashed: seq<string>)
    requires j.Valid()
    requires Followed(origin, g, j.Tables(), start)
    requires first <= |calls| && calls[first..] == Chunks(payments) && ChainFair(calls, answers)
    requires Midway(g, id, calls, first, before.receipt, before.proofs, hashes)
    modifies j
    ensures j.Valid() && Followed(origin, h, j.Tables(), now)
    ensures r.Ok? ==> Midway(h, id, calls, |calls|, r.value.receipt, r.value.proofs, hashed)
    ensures r.Err? ==> Stopped(h, id, r.error)
  {
    hide Followed, Midway, Stopped, Chunks, ChainAllows;
    now, h, hashed := start, g, hashes;
    var rest, k, paid := payments, first, before;
    while rest != []
      invariant j.Valid() && Followed(origin, h, j.Tables(), now)
      invariant first <= k <= |calls| && calls[k..] == Chunks(rest)
      invariant Midway(h, id, calls, k, paid.receipt, paid.proofs, hashed)
      decreases |rest|
    {
      var n := if |rest| < MAX_TRANSFERS then |rest| else MAX_TRANSFERS;
      ChunksStep(rest);
      assert calls[k] == calls[k..][0] == WaveChunk(rest[..n]);
      var one;
      one, now, h := PayCall(j, id, WaveChunk(rest[..n]), answers[k], paid.receipt, paid.proofs, now, calls, k, hashed, origin, h);
      if one.Err? {
        return Err(one.error), now, h, hashed;
      }
      hashed := hashed + [answers[k].hash];
      paid := one.value;
      assert calls[k + 1..] == calls[k..][1..] == Chunks(rest[n..]);
      rest, k := rest[n..], k + 1;
    }
    NoChunks();
    assert |calls[k..]| == |calls| - k;
    r := Ok(paid);
  }

  lemma NoChunks()
    ensures Chunks([]) == []
  {
  }

  method PayMerkle(j: JS.Journal, id: UploadId, batches: seq<Batch>, answers: seq<Answers>, first: nat, before: Paid, start: int,
                   ghost calls: seq<Call>, ghost hashes: seq<string>, ghost origin: Gateway, ghost g: Gateway)
    returns (r: Result<Paid, ErrorClass>, now: int, ghost h: Gateway, ghost hashed: seq<string>)
    requires j.Valid()
    requires Followed(origin, g, j.Tables(), start)
    requires first <= |calls| && calls[first..] == BatchCalls(batches) && ChainFair(calls, answers)
    requires Midway(g, id, calls, first, before.receipt, before.proofs, hashes)
    modifies j
    ensures j.Valid() && Followed(origin, h, j.Tables(), now)
    ensures r.Ok? ==> Midway(h, id, calls, |calls|, r.value.receipt, r.value.proofs, hashed)
    ensures r.Err? ==> Stopped(h, id, r.error)
  {
    hide Followed, Midway, Stopped, ChainAllows;
    assert |calls[first..]| == |batches|;
    now, h, hashed := start, g, hashes;
    var paid := before;
    for i := 0 to |batches|
      invariant j.Valid() && Followed(origin, h, j.Tables(), now)
      invariant Midway(h, id, calls, first + i, paid.receipt, paid.proofs, hashed)
    {
      assert calls[first + i] == calls[first..][i] == MerkleBatch(batches[i]);
      var one;
      one, now, h := PayCall(j, id, MerkleBatch(batches[i]), answers[first + i], paid.receipt, paid.proofs, now, calls, first + i, hashed, origin, h);
      if one.Err? {
        return Err(one.error), now, h, hashed;
      }
      hashed := hashed + [answers[first + i].hash];
      paid := one.value;
    }
    r := Ok(paid);
  }

  // The whole of `pay`. It starts with the storage check under the signer's lock, sets a bounded
  // allowance, makes every payment call in order, and leaves the machine either past the last call
  // with its totals and proofs, or failing with the class of the statement that failed.
  method Pay(j: JS.Journal, id: UploadId, prepared: Prepared, answers: seq<Answers>, start: int, ghost g: Gateway)
    returns (r: Result<Paid, ErrorClass>, now: int, ghost h: Gateway)
    requires j.Valid()
    requires Inv(g) && g.world.ledger == j.Tables() && g.now == start
    requires id in g.running && g.running[id].phase.Preparation? && g.lock.None? && Consistent(prepared)
    requires StorageUpper(prepared).Some? ==> ChainFair(Calls(prepared), answers)
    modifies j
    ensures j.Valid() && Followed(g, h, j.Tables(), now)
    ensures r.Ok? ==> AllPaid(h, id, prepared, r.value)
    ensures r.Err? ==> Stopped(h, id, r.error)
  {
    hide Inv, LI.Inv, Reaches, Stopped, Apply, ChainAllows, Chunks, CheckStorage, Consistent, BatchCalls, StorageUpper;
    now, h := start, Apply(g, PayBegin(id, prepared));
    ReachesSelf(g);
    Follow(g, g, PayBegin(id, prepared));
    Begins(g, id, prepared);
    var upper := StorageUpper(prepared);
    if upper.None? {
      return Err(NeedsRecovery), now, h;
    }
    var checked := j.CheckStorage(now, id.approval, upper.value);
    if checked.Err? {
      return Err(ClassOf(checked.error)), now, h;
    }
    ghost var calls := Calls(prepared);
    ghost var hashes: seq<string> := [];
    var paid := Paid(Receipt(0, 0), map[]);
    var k := 0;
    assert calls[..0] == [] && ProofMap([], []) == map[];
    assert Midway(h, id, calls, 0, paid.receipt, paid.proofs, hashes);
    hide Midway, Followed, At;
    if upper.value > 0 {
      var first;
      first, now, h := PayCall(j, id, TokenApproval(upper.value), answers[0], paid.receipt, paid.proofs, now, calls, 0, hashes, g, h);
      if first.Err? {
        return Err(first.error), now, h;
      }
      paid, hashes, k := first.value, hashes + [answers[0].hash], 1;
    }
    assert calls[k..] == Payments(prepared);
    match prepared {
      case Wave(payments, _) => r, now, h, hashes := PayWave(j, id, payments, answers, k, paid, now, calls, hashes, g, h);
      case Merkle(batches) => r, now, h, hashes := PayMerkle(j, id, batches, answers, k, paid, now, calls, hashes, g, h);
    }
    assert r.Ok? ==> AllPaid(h, id, prepared, r.value);
  }
}
