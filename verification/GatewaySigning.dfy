// The signer's steps and the chain's keep the gateway invariant.
module GatewaySigning {
  import opened Outcomes
  import opened Amounts
  import opened Contract
  import opened Sums
  import opened Ledger
  import opened Signer
  import opened Gateway
  import opened GatewayInvariant
  import opened GatewaySteps
  import LI = LedgerInvariant

  // -- Reserving --

  lemma ReserveShape(l: Ledger, now: int, r: Reservation)
    ensures var o := Reserve(l, now, r);
      o.Done? ==>
        && r.approval in l.approvals && r.upload in l.uploads
        && l.approvals[r.approval].definition.network == l.network
        && l.approvals[r.approval].reservedStorage + r.storageUpper <= l.approvals[r.approval].definition.StorageCap()
        && o.tables == l.(
             txs := l.txs + [NewTx(l, r)],
             approvals := l.approvals[r.approval := l.approvals[r.approval].(
               reservedStorage := l.approvals[r.approval].reservedStorage + r.storageUpper,
               reservedGas := l.approvals[r.approval].reservedGas + r.gasUpper)],
             uploads := l.uploads[r.upload := l.uploads[r.upload].(state := Paying)])
  {
  }

  // Appending the row of the current call.
  ghost predicate Appended(w: World, v: World, t: TxRow, o: Origin) {
    && v.ledger.txs == w.ledger.txs + [t]
    && v.origins == w.origins + [o]
    && v.broadcast == w.broadcast && v.mined == w.mined
    && v.ledger.network == w.ledger.network == t.network
    && t.hash.None? && t.charge.None? && t.state == Reserved
    && t.storageReserved == Upper(o.call)
    && v.ledger.uploads.Keys == w.ledger.uploads.Keys
    && (forall u :: u in w.ledger.uploads ==>
          && v.ledger.uploads[u].approval == w.ledger.uploads[u].approval
          && (u != t.upload ==> v.ledger.uploads[u] == w.ledger.uploads[u]))
  }

  lemma AppendedWorld(w: World, v: World, t: TxRow, o: Origin)
    requires WorldOk(w) && Appended(w, v, t, o)
    requires forall i :: 0 <= i < |w.ledger.txs| && w.ledger.txs[i].upload == t.upload ==>
      w.origins[i].run == o.run && w.origins[i].step < o.step
    ensures WorldOk(v)
  {
    forall i | 0 <= i < |v.ledger.txs| ensures RowOk(v, i) {
      if i < |w.ledger.txs| {
        assert RowOk(w, i);
      }
    }
    forall r | r in v.broadcast ensures Journaled(v, r) {
      assert Journaled(w, r);
      var i :| 0 <= i < |w.ledger.txs| && w.ledger.txs[i].hash == Some(r.hash) && w.ledger.txs[i].network == r.network;
      assert v.ledger.txs[i] == w.ledger.txs[i];
    }
  }

  lemma AppendedOthers(w: World, v: World, t: TxRow, o: Origin, u: UploadId)
    requires |w.origins| == |w.ledger.txs|
    requires Appended(w, v, t, o) && u != t.upload
    ensures SameFor(w, v, u)
  {
  }

  lemma AppendedSpent(w: World, v: World, t: TxRow, o: Origin, u: UploadId)
    requires Appended(w, v, t, o)
    ensures Spent(v, u) == Spent(w, u)
  {
    SumSame(w.ledger.txs, v.ledger.txs, SpentStorage(u));
    SumSame(w.ledger.txs, v.ledger.txs, SpentGas(u));
  }

  lemma AppendedSigning(w: World, v: World, t: TxRow, u: UploadId, run: nat, p: Phase)
    requires |w.origins| == |w.ledger.txs|
    requires p.Signing? && p.stage.Idle? && p.next < |p.calls| && SigningOk(w, u, run, p)
    requires Appended(w, v, t, Origin(run, p.next, p.calls[p.next])) && t.upload == u
    requires u.approval in v.ledger.approvals
    requires v.ledger.approvals[u.approval].definition == w.ledger.approvals[u.approval].definition
    requires v.ledger.approvals[u.approval].reservedStorage == w.ledger.approvals[u.approval].reservedStorage + t.storageReserved
    ensures SigningOk(v, u, run, p.(stage := Intended(|w.ledger.txs|)))
  {
    var q := p.(stage := Intended(|w.ledger.txs|));
    AppendedSpent(w, v, t, Origin(run, p.next, p.calls[p.next]), u);
    forall k | 0 <= k < p.next ensures CallPaid(v, u, Origin(run, k, p.calls[k]), p.hashes[k]) {
      CallPaidSame(w, v, u, Origin(run, k, p.calls[k]), p.hashes[k]);
    }
    assert p.calls[p.next..] == [p.calls[p.next]] + p.calls[p.next + 1..];
    SumCons(p.calls[p.next], p.calls[p.next + 1..], UpperOf());
    assert BudgetOk(v, u, q);
    assert StageOk(v, u, run, q);
    assert RowsOfRun(v, u, run, q);
  }

  lemma PayingIncomplete(w: World, id: UploadId)
    requires id in w.ledger.uploads && w.ledger.uploads[id].state == Paying
    ensures CompleteOk(w, id)
  {
  }

  function NextOrigin(g: Gateway, id: UploadId): Origin
    requires AtCall(g, id)
  {
    Origin(g.running[id].run, g.running[id].phase.next, g.running[id].phase.calls[g.running[id].phase.next])
  }

  // What a successful reservation does to the machine.
  lemma {:induction false} ReserveEffect(g: Gateway, id: UploadId, tx: string, nonce: nat, gasUpper: nat)
    requires Inv(g)
    requires AtCall(g, id) && g.running[id].phase.stage.Idle?
    requires Reserve(g.world.ledger, g.now, NextReservation(g, id, tx, nonce, gasUpper)).Done?
    ensures var g' := DoReserve(g, id, tx, nonce, gasUpper);
      && g' == WithTask(g, id, g.running[id].(phase := g.running[id].phase.(stage := Intended(|g.world.ledger.txs|)))).(world := g'.world)
      && LI.Inv(g'.world.ledger)
      && Appended(g.world, g'.world, NewTx(g.world.ledger, NextReservation(g, id, tx, nonce, gasUpper)), NextOrigin(g, id))
      && id in g'.world.ledger.uploads && g'.world.ledger.uploads[id].state == Paying
      && g'.world.ledger.uploads[id].leaseKey == g.running[id].leaseKey
      && id.approval in g.world.ledger.approvals && id.approval in g'.world.ledger.approvals
      && g'.world.ledger.approvals[id.approval].definition == g.world.ledger.approvals[id.approval].definition
      && g'.world.ledger.approvals[id.approval].reservedStorage ==
           g.world.ledger.approvals[id.approval].reservedStorage + NextReservation(g, id, tx, nonce, gasUpper).storageUpper
  {
    hide Inv, LI.Inv, Reserve, SigningOk, Upper, Fail, ClassOf;
    var r := NextReservation(g, id, tx, nonce, gasUpper);
    SigningTask(g, id);
    Parts(g);
    ReserveShape(g.world.ledger, g.now, r);
    LI.ReserveKeeps(g.world.ledger, g.now, r);
    hide WorldOk;
  }

  lemma {:induction false} ReserveKept(g: Gateway, id: UploadId, tx: string, nonce: nat, gasUpper: nat)
    requires Inv(g)
    requires AtCall(g, id) && g.running[id].phase.stage.Idle?
    requires Reserve(g.world.ledger, g.now, NextReservation(g, id, tx, nonce, gasUpper)).Done?
    ensures Inv(DoReserve(g, id, tx, nonce, gasUpper))
  {
    hide LI.Inv, Reserve, DoReserve, SigningOk, OriginsOrdered, RowOk, Journaled, TaskOk, SessionOk, CompleteOk, Spent, Upper;
    var g' := DoReserve(g, id, tx, nonce, gasUpper);
    var w, v, p := g.world, g'.world, g.running[id].phase;
    var t, o := NewTx(w.ledger, NextReservation(g, id, tx, nonce, gasUpper)), NextOrigin(g, id);
    SigningTask(g, id);
    ReserveEffect(g, id, tx, nonce, gasUpper);
    assert WorldOk(v) by {
      PriorRows(w, id, g.running[id].run, p);
      AppendedWorld(w, v, t, o);
    }
    AppendedSigning(w, v, t, id, g.running[id].run, p);
    assert TaskOk(v, id, g'.running[id]) by { SigningTaskOk(v, id, g'.running[id]); }
    forall u | u != id ensures SameFor(w, v, u) {
      AppendedOthers(w, v, t, o, u);
    }
    NotLeaving(g, id);
    assert CompleteOk(v, id) by { PayingIncomplete(v, id); }
    hide SameFor, WorldOk;
    Acted(g, g', id);
  }

  lemma SigningTask(g: Gateway, id: UploadId)
    requires Inv(g)
    requires id in g.running && g.running[id].phase.Signing?
    ensures |g.world.origins| == |g.world.ledger.txs|
    ensures SigningOk(g.world, id, g.running[id].run, g.running[id].phase)
    ensures InFlight(g.world, id)
    ensures g.world.ledger.uploads[id].leaseKey == g.running[id].leaseKey
    ensures g.world.ledger.uploads[id].approval == id.approval
    ensures forall u :: u in g.running && u != id ==> !g.running[u].phase.Signing?
    ensures id !in g.resumes
    ensures g.lock == Some(id)
  {
    hide LI.Inv, SigningOk, OriginsOrdered, RowOk, Journaled, CompletesOk, Sealed;
    assert TaskOk(g.world, id, g.running[id]);
  }

  lemma SigningTaskOk(v: World, id: UploadId, t: Task)
    requires |v.origins| == |v.ledger.txs|
    requires t.phase.Signing? && SigningOk(v, id, t.run, t.phase)
    requires InFlight(v, id) && v.ledger.uploads[id].leaseKey == t.leaseKey
    ensures TaskOk(v, id, t)
  {
    hide SigningOk;
  }

  lemma PriorRows(w: World, id: UploadId, run: nat, p: Phase)
    requires |w.origins| == |w.ledger.txs|
    requires p.Signing? && p.stage.Idle? && SigningOk(w, id, run, p)
    ensures forall i :: 0 <= i < |w.ledger.txs| && w.ledger.txs[i].upload == id ==>
      w.origins[i].run == run && w.origins[i].step < p.next
  {
  }

  lemma {:induction false} ReserveStepKept(g: Gateway, id: UploadId, tx: string, nonce: nat, gasUpper: nat)
    requires Inv(g)
    ensures Inv(Apply(g, ReserveStep(id, tx, nonce, gasUpper)))
  {
    if AtCall(g, id) && g.running[id].phase.stage.Idle? {
      hide Inv, Reserve;
      var o := Reserve(g.world.ledger, g.now, NextReservation(g, id, tx, nonce, gasUpper));
      if o.Done? {
        ReserveKept(g, id, tx, nonce, gasUpper);
      } else {
        NotLeaving(g, id);
        FailKeeps(g, id, ClassOf(o.error), false);
      }
    }
  }

  // -- Signing --

  // Replacing row i, of the acting upload, by a later version of itself.
  ghost predicate Updated(w: World, v: World, i: nat, t: TxRow) {
    && i < |w.ledger.txs| == |w.origins|
    && v.ledger.txs == w.ledger.txs[i := t]
    && v.origins == w.origins && v.broadcast == w.broadcast && v.mined == w.mined
    && v.ledger.network == w.ledger.network
    && v.ledger.uploads == w.ledger.uploads
    && t == w.ledger.txs[i].(hash := t.hash, state := t.state, charge := t.charge)
    && (w.ledger.txs[i].hash.Some? ==> t.hash == w.ledger.txs[i].hash)
  }

  lemma UpdatedOthers(w: World, v: World, i: nat, t: TxRow, u: UploadId)
    requires Updated(w, v, i, t) && u != t.upload
    ensures SameFor(w, v, u)
  {
  }

  lemma UpdatedWorld(w: World, v: World, i: nat, t: TxRow)
    requires WorldOk(w) && Updated(w, v, i, t)
    requires RowOk(v, i)
    ensures WorldOk(v)
  {
    forall j | 0 <= j < |v.ledger.txs| ensures RowOk(v, j) {
      assert RowOk(w, j);
    }
    forall r | r in v.broadcast ensures Journaled(v, r) {
      assert Journaled(w, r);
      var j :| 0 <= j < |w.ledger.txs| && w.ledger.txs[j].hash == Some(r.hash) && w.ledger.txs[j].network == r.network;
      assert v.ledger.txs[j].hash == Some(r.hash) && v.ledger.txs[j].network == r.network;
    }
  }

  lemma SignShape(l: Ledger, now: int, i: nat, hash: string)
    requires LI.RowsIndependent(l.txs) && i < |l.txs|
    ensures var o := RecordSigned(l, now, l.txs[i].id, hash);
      o.Done? ==>
        && o.tables == l.(txs := l.txs[i := l.txs[i].(hash := Some(hash), state := Signed)])
        && l.txs[i].state == Reserved
        && (forall k :: 0 <= k < |l.txs| ==> !(l.txs[k].hash == Some(hash) && l.txs[k].network == l.txs[i].network))
  {
    LI.FoundById(l.txs, i);
  }

  lemma UpdatedSigning(w: World, v: World, i: nat, t: TxRow, u: UploadId, run: nat, p: Phase)
    requires Updated(w, v, i, t)
    requires p.Signing? && p.stage == Intended(i) && SigningOk(w, u, run, p)
    requires t.state == Signed && t.charge.None? && w.ledger.txs[i].charge.None? && w.ledger.txs[i].state == Reserved
    requires v.ledger.approvals == w.ledger.approvals
    ensures SigningOk(v, u, run, p.(stage := Recorded(i)))
  {
    SumSame(w.ledger.txs, v.ledger.txs, SpentStorage(u));
    SumSame(w.ledger.txs, v.ledger.txs, SpentGas(u));
    forall k | 0 <= k < p.next ensures CallPaid(v, u, Origin(run, k, p.calls[k]), p.hashes[k]) {
      CallPaidSame(w, v, u, Origin(run, k, p.calls[k]), p.hashes[k]);
    }
  }

  lemma StageRow(w: World, u: UploadId, run: nat, p: Phase)
    requires |w.origins| == |w.ledger.txs|
    requires p.Signing? && !p.stage.Idle? && SigningOk(w, u, run, p)
    ensures p.next < |p.calls| && p.stage.i < |w.ledger.txs|
    ensures var t := w.ledger.txs[p.stage.i];
      && t.upload == u && t.network == w.ledger.network
      && w.origins[p.stage.i] == Origin(run, p.next, p.calls[p.next])
      && t.state == (if p.stage.Intended? then Reserved else Signed)
  {
  }

  // A hash that no row had is a hash nothing was broadcast or mined under.
  lemma FreshHash(w: World, network: string, hash: string)
    requires WorldOk(w)
    requires forall k :: 0 <= k < |w.ledger.txs| ==> !(w.ledger.txs[k].hash == Some(hash) && w.ledger.txs[k].network == network)
    ensures Reference(network, hash) !in w.mined
  {
    forall r | r in w.broadcast ensures r != Reference(network, hash) {
      assert Journaled(w, r);
    }
  }

  lemma {:induction false} SignKept(g: Gateway, id: UploadId, hash: string)
    requires Inv(g)
    requires AtCall(g, id) && g.running[id].phase.stage.Intended? && g.running[id].phase.stage.i < |g.world.ledger.txs|
    requires RecordSigned(g.world.ledger, g.now, g.world.ledger.txs[g.running[id].phase.stage.i].id, hash).Done?
    ensures Inv(DoSign(g, id, g.running[id].phase.stage.i, hash))
  {
    hide LI.Inv, RecordSigned, SigningOk, OriginsOrdered, Journaled, Sealed, TaskOk, Inv;
    var w, p := g.world, g.running[id].phase;
    var i := p.stage.i;
    var g' := DoSign(g, id, i, hash);
    var v := g'.world;
    var t := w.ledger.txs[i].(hash := Some(hash), state := Signed);
    SigningTask(g, id);
    Parts(g);
    StageRow(w, id, g.running[id].run, p);
    assert LI.RowsIndependent(w.ledger.txs) && LI.RowShape(w.ledger.txs[i]) by { LedgerRow(w.ledger, i); }
    SignShape(w.ledger, g.now, i, hash);
    LI.RecordSignedKeeps(w.ledger, g.now, w.ledger.txs[i].id, hash);
    assert Updated(w, v, i, t);
    assert RowOk(v, i) by {
      assert RowOk(w, i);
      FreshHash(w, t.network, hash);
    }
    UpdatedWorld(w, v, i, t);
    UpdatedSigning(w, v, i, t, id, g.running[id].run, p);
    SigningTaskOk(v, id, g'.running[id]);
    ActedSigning(g, g', id, i, t);
  }

  lemma LedgerRow(l: Ledger, i: nat)
    requires LI.Inv(l) && i < |l.txs|
    ensures LI.RowsIndependent(l.txs) && LI.RowShape(l.txs[i])
  {
  }

  // The acting task replaced its own row and stays in flight.
  lemma {:induction false} ActedSigning(g: Gateway, g': Gateway, id: UploadId, i: nat, t: TxRow)
    requires Inv(g)
    requires id in g.running && g.running[id].phase.Signing?
    requires id in g'.running && g' == WithTask(g, id, g'.running[id]).(world := g'.world, lock := g'.lock)
    requires g'.running[id].run == g.running[id].run
    requires g'.lock == (if g'.running[id].phase.Signing? then g.lock else None)
    requires Updated(g.world, g'.world, i, t) && t.upload == id
    requires LI.Inv(g'.world.ledger) && WorldOk(g'.world) && TaskOk(g'.world, id, g'.running[id])
    ensures Inv(g')
  {
    hide LI.Inv, SigningOk, OriginsOrdered, RowOk, Journaled, Sealed, TaskOk;
    SigningTask(g, id);
    forall u | u != id ensures SameFor(g.world, g'.world, u) {
      UpdatedOthers(g.world, g'.world, i, t, u);
    }
    hide SameFor, WorldOk, Updated;
    assert id in g'.world.ledger.uploads ==> CompleteOk(g'.world, id) by { NotComplete(g, g', id, i, t); }
    Acted(g, g', id);
  }

  lemma NotComplete(g: Gateway, g': Gateway, id: UploadId, i: nat, t: TxRow)
    requires InFlight(g.world, id) && Updated(g.world, g'.world, i, t)
    ensures id in g'.world.ledger.uploads ==> CompleteOk(g'.world, id)
  {
  }

  lemma {:induction false} SignStepKept(g: Gateway, id: UploadId, hash: string)
    requires Inv(g)
    ensures Inv(Apply(g, SignStep(id, hash)))
  {
    if AtCall(g, id) && g.running[id].phase.stage.Intended? && g.running[id].phase.stage.i < |g.world.ledger.txs| {
      hide Inv, RecordSigned;
      var i := g.running[id].phase.stage.i;
      var o := RecordSigned(g.world.ledger, g.now, g.world.ledger.txs[i].id, hash);
      if o.Done? {
        SignKept(g, id, hash);
      } else {
        NotLeaving(g, id);
        FailKeeps(g, id, ClassOf(o.error), false);
      }
    }
  }

  // -- Broadcasting and mining --

  lemma SentSigning(w: World, v: World, r: Reference, u: UploadId, run: nat, p: Phase)
    requires |w.origins| == |w.ledger.txs|
    requires p.Signing? && p.stage.Recorded? && SigningOk(w, u, run, p)
    requires v == w.(broadcast := w.broadcast + {r})
    requires w.ledger.txs[p.stage.i].hash.Some? && r == RefOf(w.ledger.txs[p.stage.i])
    ensures SigningOk(v, u, run, p.(stage := Sent(p.stage.i)))
  {
    forall k | 0 <= k < p.next ensures CallPaid(v, u, Origin(run, k, p.calls[k]), p.hashes[k]) {
      CallPaidSame(w, v, u, Origin(run, k, p.calls[k]), p.hashes[k]);
    }
  }

  lemma {:induction false} SendStepKept(g: Gateway, id: UploadId)
    requires Inv(g)
    ensures Inv(Apply(g, SendStep(id)))
  {
    hide LI.Inv, SigningOk, OriginsOrdered, RowOk, Sealed, TaskOk;
    if AtCall(g, id) && g.running[id].phase.stage.Recorded? && HasHash(g, g.running[id].phase.stage.i) {
      var w, p := g.world, g.running[id].phase;
      var t := w.ledger.txs[p.stage.i];
      var v := w.(broadcast := w.broadcast + {RefOf(t)});
      SigningTask(g, id);
      assert WorldOk(v) by { ChainWorld(w, v, p.stage.i); }
      SentSigning(w, v, RefOf(t), id, g.running[id].run, p);
      var g' := Apply(g, SendStep(id));
      assert g'.world == v;
      SigningTaskOk(v, id, g'.running[id]);
      StageRow(w, id, g.running[id].run, p);
      assert Updated(w, v.(broadcast := w.broadcast), p.stage.i, t);
      forall u ensures SameFor(w, v, u) {
      }
      hide SameFor, WorldOk;
      assert id in g'.world.ledger.uploads ==> CompleteOk(g'.world, id);
      Acted(g, g', id);
    }
  }

  // The chain saw, or mined, the signed bytes of row i.
  lemma ChainWorld(w: World, v: World, i: nat)
    requires WorldOk(w)
    requires i < |w.ledger.txs| && w.ledger.txs[i].hash.Some?
    requires v.ledger == w.ledger && v.origins == w.origins
    requires v.broadcast == w.broadcast + {RefOf(w.ledger.txs[i])}
    requires v.mined == w.mined
    ensures WorldOk(v)
  {
    forall j | 0 <= j < |v.ledger.txs| ensures RowOk(v, j) {
      assert RowOk(w, j);
    }
    forall r | r in v.broadcast ensures Journaled(v, r) {
      if r in w.broadcast {
        assert Journaled(w, r);
      } else {
        assert w.ledger.txs[i].hash == Some(r.hash);
      }
    }
  }

  lemma MinedWorld(w: World, v: World, i: nat, outcome: Mined)
    requires WorldOk(w) && LI.RowsIndependent(w.ledger.txs)
    requires i < |w.ledger.txs| && w.ledger.txs[i].hash.Some? && RefOf(w.ledger.txs[i]) in w.broadcast - w.mined.Keys
    requires ChainAllows(w.origins[i].call, outcome)
    requires v == w.(mined := w.mined[RefOf(w.ledger.txs[i]) := outcome])
    ensures WorldOk(v)
  {
    forall j | 0 <= j < |v.ledger.txs| ensures RowOk(v, j) {
      assert RowOk(w, j);
      LI.DistinctRows(w.ledger.txs, i, j);
    }
    forall r | r in v.broadcast ensures Journaled(v, r) {
      assert Journaled(w, r);
    }
  }

  lemma {:induction false} MineStepKept(g: Gateway, i: nat, outcome: Mined)
    requires Inv(g)
    ensures Inv(Apply(g, MineStep(i, outcome)))
  {
    hide Inv, LI.Inv, RowOk, Journaled, OriginsOrdered, LI.RowsIndependent, SameFor, RoomKept, ChainAllows;
    var g' := Apply(g, MineStep(i, outcome));
    if g' != g {
      var w, v := g.world, g'.world;
      Parts(g);
      LedgerRow(w.ledger, i);
      MinedWorld(w, v, i, outcome);
      forall u ensures SameFor(w, v, u) && RoomKept(w, v, u.approval) {
        MinedSame(w, v, RefOf(w.ledger.txs[i]), outcome, u);
      }
      Ambient(g, v);
      assert g' == g.(world := v);
    }
  }

  lemma MinedSame(w: World, v: World, r: Reference, outcome: Mined, u: UploadId)
    requires |w.origins| == |w.ledger.txs|
    requires r !in w.mined && v == w.(mined := w.mined[r := outcome])
    ensures SameFor(w, v, u) && RoomKept(w, v, u.approval)
  {
  }

  // -- Settling --

  lemma {:induction false} SettleShape(l: Ledger, i: nat, storage: nat, gas: nat)
    requires LI.Inv(l)
    requires i < |l.txs| && l.txs[i].hash.Some? && l.txs[i].network == l.network && l.txs[i].state == Signed
    ensures var o := Settle(l, l.txs[i].hash.value, storage, gas);
      o.Done? ==>
        && storage <= l.txs[i].storageReserved && gas <= l.txs[i].gasReserved
        && l.txs[i].approval in l.approvals && l.txs[i].approval in o.tables.approvals
        && o.tables == l.(
             txs := l.txs[i := l.txs[i].(state := Settled, charge := Some(Charge(storage, gas)))],
             approvals := o.tables.approvals)
        && (forall a :: a in l.approvals ==>
              && a in o.tables.approvals
              && o.tables.approvals[a].definition == l.approvals[a].definition
              && o.tables.approvals[a].reservedStorage <= l.approvals[a].reservedStorage)
  {
    LI.FoundByHash(l.txs, i);
  }

  lemma SettledRow(w: World, v: World, i: nat, t: TxRow, m: Mined)
    requires Updated(w, v, i, t) && RowOk(w, i)
    requires w.ledger.txs[i].hash == t.hash
    requires t.hash.Some? && RefOf(t) in w.mined && w.mined[RefOf(t)] == m
    requires t.charge == Some(Charge(SettledStorage(w.origins[i].call, m), m.gas))
    ensures RowOk(v, i)
  {
  }

  // A successful settlement pays the current call and moves to the next.
  lemma SettledSigning(w: World, v: World, i: nat, t: TxRow, m: Mined, u: UploadId, run: nat, p: Phase)
    requires Updated(w, v, i, t)
    requires p.Signing? && p.stage == Sent(i) && SigningOk(w, u, run, p)
    requires t.hash.Some? && t.state == Settled && w.ledger.txs[i].charge.None?
    requires RefOf(t) in w.mined && w.mined[RefOf(t)] == m && m.success
    requires t.charge == Some(Charge(SettledStorage(p.calls[p.next], m), m.gas))
    requires forall a :: a in w.ledger.approvals ==>
      && a in v.ledger.approvals
      && v.ledger.approvals[a].definition == w.ledger.approvals[a].definition
      && v.ledger.approvals[a].reservedStorage <= w.ledger.approvals[a].reservedStorage
    ensures SigningOk(v, u, run, p.(
      next := p.next + 1,
      stage := Idle,
      paid := Receipt(p.paid.storage + SettledStorage(p.calls[p.next], m), p.paid.gas + m.gas),
      hashes := p.hashes + [t.hash.value]))
  {
    var q := p.(
      next := p.next + 1,
      stage := Idle,
      paid := Receipt(p.paid.storage + SettledStorage(p.calls[p.next], m), p.paid.gas + m.gas),
      hashes := p.hashes + [t.hash.value]);
    SettledCalls(w, v, i, t, u, run, p);
    hide CallPaid;
    SumUpdate(w.ledger.txs, i, t, SpentStorage(u));
    SumUpdate(w.ledger.txs, i, t, SpentGas(u));
    assert RowsOfRun(v, u, run, q);
    assert BudgetOk(v, u, q);
  }

  lemma SettledCalls(w: World, v: World, i: nat, t: TxRow, u: UploadId, run: nat, p: Phase)
    requires Updated(w, v, i, t)
    requires p.Signing? && p.stage == Sent(i) && SigningOk(w, u, run, p)
    requires t.hash.Some? && t.state == Settled
    requires RefOf(t) in w.mined && w.mined[RefOf(t)].success
    ensures forall k :: 0 <= k <= p.next ==> CallPaid(v, u, Origin(run, k, p.calls[k]), (p.hashes + [t.hash.value])[k])
  {
    hide BudgetOk, Spent;
    forall k | 0 <= k <= p.next ensures CallPaid(v, u, Origin(run, k, p.calls[k]), (p.hashes + [t.hash.value])[k]) {
      if k < p.next {
        CallPaidSame(w, v, u, Origin(run, k, p.calls[k]), p.hashes[k]);
      } else {
        assert PaidRow(v, i, u, Origin(run, k, p.calls[k]), t.hash.value);
      }
    }
  }

  lemma {:induction false} SettleKept(g: Gateway, id: UploadId, m: Mined)
    requires Inv(g)
    requires AtCall(g, id) && g.running[id].phase.stage.Sent? && HasHash(g, g.running[id].phase.stage.i)
    requires var r := RefOf(g.world.ledger.txs[g.running[id].phase.stage.i]); r in g.world.mined && g.world.mined[r] == m
    requires var p := g.running[id].phase;
      Settle(g.world.ledger, g.world.ledger.txs[p.stage.i].hash.value, SettledStorage(p.calls[p.next], m), m.gas).Done?
    ensures Inv(DoSettle(g, id, g.running[id].phase.stage.i, m))
  {
    hide LI.Inv, Settle, SigningOk, OriginsOrdered, Journaled, Sealed, TaskOk, Inv, SettledStorage, RowOk;
    var w, p := g.world, g.running[id].phase;
    var i := p.stage.i;
    var g' := DoSettle(g, id, i, m);
    var v := g'.world;
    var storage := SettledStorage(p.calls[p.next], m);
    var t := w.ledger.txs[i].(state := Settled, charge := Some(Charge(storage, m.gas)));
    SigningTask(g, id);
    Parts(g);
    StageRow(w, id, g.running[id].run, p);
    assert LI.RowShape(w.ledger.txs[i]) by { LedgerRow(w.ledger, i); }
    SettleShape(w.ledger, i, storage, m.gas);
    LI.SettleKeeps(w.ledger, w.ledger.txs[i].hash.value, storage, m.gas);
    assert Updated(w, v, i, t);
    assert RowOk(w, i);
    SettledRow(w, v, i, t, m);
    UpdatedWorld(w, v, i, t);
    if m.success {
      SettledSigning(w, v, i, t, m, id, g.running[id].run, p);
      SigningTaskOk(v, id, g'.running[id]);
    } else {
      FailingTaskOk(v, id, g'.running[id]);
    }
    SettledActs(g, g', id, i, t);
  }

  lemma FailingTaskOk(v: World, id: UploadId, t: Task)
    requires |v.origins| == |v.ledger.txs|
    requires t.phase.Failing? && InFlight(v, id)
    ensures TaskOk(v, id, t)
  {
  }

  lemma {:induction false} SettledActs(g: Gateway, g': Gateway, id: UploadId, i: nat, t: TxRow)
    requires Inv(g)
    requires id in g.running && g.running[id].phase.Signing?
    requires id in g'.running && g' == WithTask(g, id, g'.running[id]).(world := g'.world, lock := g'.lock)
    requires g'.running[id].run == g.running[id].run
    requires g'.lock == (if g'.running[id].phase.Signing? then g.lock else None)
    requires Updated(g.world, g'.world, i, t) && t.upload == id
    requires LI.Inv(g'.world.ledger) && WorldOk(g'.world) && TaskOk(g'.world, id, g'.running[id])
    ensures Inv(g')
  {
    hide Inv;
    ActedSigning(g, g', id, i, t);
  }

  lemma {:induction false} SettleStepKept(g: Gateway, id: UploadId)
    requires Inv(g)
    ensures Inv(Apply(g, SettleStep(id)))
  {
    hide Inv, Settle;
    if AtCall(g, id) && g.running[id].phase.stage.Sent? && HasHash(g, g.running[id].phase.stage.i)
       && RefOf(g.world.ledger.txs[g.running[id].phase.stage.i]) in g.world.mined
    {
      var p := g.running[id].phase;
      var t := g.world.ledger.txs[p.stage.i];
      var m := g.world.mined[RefOf(t)];
      var o := Settle(g.world.ledger, t.hash.value, SettledStorage(p.calls[p.next], m), m.gas);
      if o.Done? {
        SettleKept(g, id, m);
      } else {
        NotLeaving(g, id);
        FailKeeps(g, id, ClassOf(o.error), false);
      }
    }
  }

  // -- Finishing and restarting --

  lemma FinishShape(l: Ledger, id: UploadId, requested: UploadState, result: Option<Receipt>)
    requires id in l.uploads
    ensures var m := Finish(l, id, requested, result);
      && m == l.(uploads := m.uploads, approvals := m.approvals)
      && m.uploads == l.uploads[id := m.uploads[id]]
      && m.uploads[id].approval == l.uploads[id].approval
      && m.uploads[id].result == result
      && m.uploads[id].state in {requested, Retryable}
      && (requested != PaymentRecoveryRequired ==> m.uploads[id].state == requested)
      && (forall a :: a in l.approvals ==>
            && a in m.approvals
            && m.approvals[a].definition == l.approvals[a].definition
            && m.approvals[a].reservedStorage == l.approvals[a].reservedStorage)
  {
  }

  ghost predicate UploadOnly(w: World, v: World, id: UploadId) {
    && v == w.(ledger := v.ledger)
    && v.ledger == w.ledger.(uploads := v.ledger.uploads, approvals := v.ledger.approvals)
    && id in w.ledger.uploads && id in v.ledger.uploads
    && v.ledger.uploads == w.ledger.uploads[id := v.ledger.uploads[id]]
    && v.ledger.uploads[id].approval == w.ledger.uploads[id].approval
    && (forall a :: a in w.ledger.approvals ==>
          && a in v.ledger.approvals
          && v.ledger.approvals[a].definition == w.ledger.approvals[a].definition
          && v.ledger.approvals[a].reservedStorage == w.ledger.approvals[a].reservedStorage)
  }

  lemma UploadOnlyOthers(w: World, v: World, id: UploadId, u: UploadId)
    requires |w.origins| == |w.ledger.txs|
    requires UploadOnly(w, v, id) && u != id
    ensures SameFor(w, v, u) && RoomKept(w, v, u.approval)
  {
  }

  // A stored result is the receipt of a sealed upload; a retained session stays in flight.
  lemma FinishedUpload(g: Gateway, v: World, id: UploadId)
    requires Inv(g)
    requires id in g.running && (g.running[id].phase.Failing? || g.running[id].phase.Succeeding?)
    requires UploadOnly(g.world, v, id)
    requires g.running[id].phase.Succeeding? ==>
      v.ledger.uploads[id].state == Complete && v.ledger.uploads[id].result == Some(g.running[id].phase.receipt)
    requires g.running[id].phase.Failing? ==> v.ledger.uploads[id].state != Complete
    requires g.running[id].phase.Failing? && g.running[id].phase.failure.IsPartial? ==> v.ledger.uploads[id].state == Partial
    ensures id in g.resumes ==> SessionOk(v, id, g.resumes[id])
    ensures CompleteOk(v, id)
  {
    hide LI.Inv, Sealed, OriginsOrdered, RowOk, Journaled, CompletesOk;
    assert TaskOk(g.world, id, g.running[id]);
    if id in g.resumes {
      SealedRows(g.world, v, id, g.resumes[id].paid);
    }
    if g.running[id].phase.Succeeding? {
      SealedRows(g.world, v, id, g.running[id].phase.receipt);
    }
  }

  // What a task may become at its final write: finished, or, once it has completed, failing with the
  // recovery write still ahead.
  predicate Concluded(p: Phase, after: Phase) {
    after.Finished? || (p.Succeeding? && after == Failing(NeedsRecovery, true))
  }

  lemma {:induction false} WriteKept(g: Gateway, id: UploadId, after: Phase)
    requires Inv(g)
    requires id in g.running && (g.running[id].phase.Failing? || g.running[id].phase.Succeeding?)
    requires Concluded(g.running[id].phase, after)
    ensures Inv(WithLedger(WithTask(g, id, g.running[id].(phase := after)), Written(g, id, g.running[id].phase)))
  {
    hide LI.Inv, Written, OriginsOrdered, RowOk, Journaled, SessionOk, CompleteOk, UploadOnly, TaskOk, Apply;
    var g' := WithLedger(WithTask(g, id, g.running[id].(phase := after)), Written(g, id, g.running[id].phase));
    var w, v := g.world, g'.world;
    FinishWrites(g, id);
    FinishedUpload(g, v, id);
    assert WorldOk(v) && |w.origins| == |w.ledger.txs| by { UploadOnlyWorld(w, v, id); }
    ConcludedTask(w, v, id, g.running[id].phase, g'.running[id]);
    if !after.Finished? {
      NotLeaving(g, id);
    }
    forall u | u != id ensures SameFor(w, v, u) && RoomKept(w, v, u.approval) {
      UploadOnlyOthers(w, v, id, u);
    }
    hide SameFor, RoomKept, WorldOk;
    Acted(g, g', id);
  }

  lemma ConcludedTask(w: World, v: World, id: UploadId, p: Phase, t: Task)
    requires |v.origins| == |v.ledger.txs|
    requires Concluded(p, t.phase)
    requires UploadOnly(w, v, id) && (p.Succeeding? ==> v.ledger.uploads[id].state == Complete)
    ensures TaskOk(v, id, t)
  {
  }

  lemma UploadOnlyWorld(w: World, v: World, id: UploadId)
    requires WorldOk(w) && UploadOnly(w, v, id)
    ensures WorldOk(v)
  {
    hide OriginsOrdered, RowOk, Journaled;
    SameRowsWorld(w, v);
  }

  // The final write changes one upload row, and approvals at most by pausing one.
  lemma {:induction false} FinishWrites(g: Gateway, id: UploadId)
    requires Inv(g)
    requires id in g.running && (g.running[id].phase.Failing? || g.running[id].phase.Succeeding?)
    ensures var p := g.running[id].phase; var v := g.world.(ledger := Written(g, id, p));
      && UploadOnly(g.world, v, id)
      && LI.Inv(v.ledger)
      && (p.Succeeding? ==> v.ledger.uploads[id].state == Complete && v.ledger.uploads[id].result == Some(p.receipt))
      && (p.Failing? ==> v.ledger.uploads[id].state != Complete)
      && (p.Failing? && p.failure.IsPartial? ==> v.ledger.uploads[id].state == Partial)
  {
    hide LI.Inv, Finish, OriginsOrdered, RowOk, Journaled, HasStorageIntent, Sealed, SigningOk, SessionsOk, CompletesOk;
    var w, p := g.world, g.running[id].phase;
    var requested := if p.Succeeding? then Complete else FinalState(g, id, p);
    var result := if p.Succeeding? then Some(p.receipt) else None;
    assert TaskOk(w, id, g.running[id]);
    FinishShape(w.ledger, id, requested, result);
    LI.FinishKeeps(w.ledger, id, requested, result);
    assert Written(g, id, p) == Finish(w.ledger, id, requested, result);
  }

  lemma {:induction false} FinishStepKept(g: Gateway, id: UploadId, written: bool)
    requires Inv(g)
    ensures Inv(Apply(g, FinishStep(id, written)))
  {
    hide Inv, Written;
    if id in g.running && (g.running[id].phase.Failing? || Concludes(g.running[id].phase, written)) {
      if written {
        WriteKept(g, id, Finished);
      } else {
        SkippedWriteKept(g, id, Finished);
      }
    }
  }

  // The completion of a resumed task, committed or not, followed by the turn to recovery.
  lemma {:induction false} LoseCompletionKept(g: Gateway, id: UploadId, written: bool)
    requires Inv(g)
    ensures Inv(Apply(g, LoseCompletion(id, written)))
  {
    hide Inv, Written;
    if id in g.running && g.running[id].phase.Succeeding? && g.running[id].phase.resumed {
      if written {
        WriteKept(g, id, Failing(NeedsRecovery, true));
      } else {
        SkippedWriteKept(g, id, Failing(NeedsRecovery, true));
      }
    }
  }

  lemma {:induction false} SkippedWriteKept(g: Gateway, id: UploadId, after: Phase)
    requires Inv(g)
    requires id in g.running && (g.running[id].phase.Failing? || g.running[id].phase.Succeeding?)
    requires Concluded(g.running[id].phase, after)
    ensures Inv(WithLedger(WithTask(g, id, g.running[id].(phase := after)), g.world.ledger))
  {
    hide LI.Inv, CompletesOk, Journaled, RowOk, OriginsOrdered, SessionOk, Sealed, SigningOk, Apply;
    var g' := WithTask(g, id, g.running[id].(phase := after));
    assert TaskOk(g.world, id, g'.running[id]) by { assert TaskOk(g.world, id, g.running[id]); }
    if !after.Finished? {
      NotLeaving(g, id);
    }
    assert WithLedger(g', g.world.ledger) == g';
    hide TaskOk, WorldOk;
    Moved(g, g', id);
  }

  lemma RestartShape(l: Ledger, network: string)
    ensures var m := Initialize(l, network);
      && m.txs == l.txs
      && m.uploads.Keys == l.uploads.Keys
      && (forall u :: u in l.uploads ==> m.uploads[u].approval == l.uploads[u].approval)
      && (forall u :: u in l.uploads && m.uploads[u].state == Complete ==> m.uploads[u] == l.uploads[u])
  {
    hide HasTxOf, AwaitsRecovery;
  }

  lemma {:induction false} RestartKept(g: Gateway, network: string)
    requires Inv(g)
    ensures Inv(Apply(g, Restart(network)))
  {
    hide LI.Inv, Initialize, OriginsOrdered, RowOk, Journaled, Spent;
    var g' := Apply(g, Restart(network));
    RestartShape(g.world.ledger, network);
    LI.InitializeKeeps(g.world.ledger, network);
    SameRowsWorld(g.world, g'.world);
    forall u | u in g'.world.ledger.uploads ensures CompleteOk(g'.world, u) {
      assert CompleteOk(g.world, u);
      if g'.world.ledger.uploads[u].state == Complete {
        SealedRows(g.world, g'.world, u, g.world.ledger.uploads[u].result.value);
      }
    }
  }

  lemma SealedRows(w: World, v: World, u: UploadId, r: Receipt)
    requires Sealed(w, u, r) && v.ledger.txs == w.ledger.txs
    ensures Sealed(v, u, r)
  {
  }

  // -- Every event, every run --

  lemma {:induction false} StepKeeps(g: Gateway, e: Event)
    requires Inv(g)
    ensures Inv(Apply(g, e))
  {
    hide Inv;
    match e {
      case Tick(_) => RemoveOrSweepStep(g, e);
      case ApproveRequest(_) => OutsideStep(g, e);
      case ActivateRequest(_) => OutsideStep(g, e);
      case CancelRequest(_, _) => OutsideStep(g, e);
      case UploadRequest(_, _, _, _, _, _) => UploadStep(g, e);
      case PayBegin(id, prepared) => BeginStep(g, id, prepared);
      case ReserveStep(id, tx, nonce, gasUpper) => ReserveStepKept(g, id, tx, nonce, gasUpper);
      case SignStep(id, hash) => SignStepKept(g, id, hash);
      case SendStep(id) => SendStepKept(g, id);
      case MineStep(i, outcome) => MineStepKept(g, i, outcome);
      case SettleStep(id) => SettleStepKept(g, id);
      case PayEnd(id) => PayEndStep(g, id);
      case Abort(id, c) => AbortStep(g, id, c);
      case StoreComplete(id) => StoreCompleteStep(g, id);
      case StorePartial(id) => StorePartialStep(g, id);
      case FinishStep(id, written) => FinishStepKept(g, id, written);
      case LoseCompletion(id, written) => LoseCompletionKept(g, id, written);
      case RemoveStep(_) => RemoveOrSweepStep(g, e);
      case ResumeRequest(id) => ResumeStep(g, id);
      case SweepResumes => RemoveOrSweepStep(g, e);
      case Restart(network) => RestartKept(g, network);
    }
  }

  lemma {:induction false} RunKeeps(g: Gateway, events: seq<Event>)
    requires Inv(g)
    ensures Inv(Run(g, events))
  {
    hide Inv, Apply;
    if |events| > 0 {
      RunKeeps(g, events[..|events| - 1]);
      StepKeeps(Run(g, events[..|events| - 1]), events[|events| - 1]);
    }
  }
}
