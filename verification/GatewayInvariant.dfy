// The invariant of the gateway machine, and what it takes to frame and keep it.
module GatewayInvariant {
  import opened Outcomes
  import opened Amounts
  import opened Contract
  import opened Sums
  import opened Ledger
  import opened Signer
  import opened Gateway
  import LI = LedgerInvariant

  function SpentStorage(u: UploadId): TxRow -> nat {
    (t: TxRow) => if t.upload == u && t.charge.Some? then t.charge.value.storage else 0
  }

  function SpentGas(u: UploadId): TxRow -> nat {
    (t: TxRow) => if t.upload == u && t.charge.Some? then t.charge.value.gas else 0
  }

  function Spent(w: World, u: UploadId): Receipt {
    Receipt(Sum(w.ledger.txs, SpentStorage(u)), Sum(w.ledger.txs, SpentGas(u)))
  }

  // -- The world --

  // The rows of one upload all come from one run of `pay`, one row to a call, in call order.
  ghost predicate OriginsOrdered(w: World)
    requires |w.origins| == |w.ledger.txs|
  {
    forall i, j :: 0 <= i < j < |w.ledger.txs| && w.ledger.txs[i].upload == w.ledger.txs[j].upload ==>
      w.origins[i].run == w.origins[j].run && w.origins[i].step < w.origins[j].step
  }

  ghost predicate RowOk(w: World, i: nat)
    requires i < |w.ledger.txs| == |w.origins|
  {
    var t := w.ledger.txs[i];
    && t.storageReserved == Upper(w.origins[i].call)
    && (t.hash.Some? && RefOf(t) in w.mined ==> ChainAllows(w.origins[i].call, w.mined[RefOf(t)]))
    && (t.charge.Some? ==>
          && t.hash.Some?
          && RefOf(t) in w.mined
          && t.charge.value == Charge(w.mined[RefOf(t)].storage, w.mined[RefOf(t)].gas))
  }

  ghost predicate Journaled(w: World, r: Reference) {
    exists i :: 0 <= i < |w.ledger.txs| && w.ledger.txs[i].hash == Some(r.hash) && w.ledger.txs[i].network == r.network
  }

  ghost predicate WorldOk(w: World) {
    && |w.origins| == |w.ledger.txs|
    && OriginsOrdered(w)
    && (forall i :: 0 <= i < |w.ledger.txs| ==> RowOk(w, i))
    && (forall r :: r in w.broadcast ==> Journaled(w, r))
    && w.mined.Keys <= w.broadcast
    && (forall u :: u in w.ledger.uploads ==> w.ledger.uploads[u].approval == u.approval)
  }

  // -- Tasks --

  // No payment of the upload is open, and the receipt is what its transactions were charged.
  ghost predicate Sealed(w: World, u: UploadId, r: Receipt) {
    && (forall i :: 0 <= i < |w.ledger.txs| && w.ledger.txs[i].upload == u ==> w.ledger.txs[i].state == Settled)
    && r == Spent(w, u)
  }

  ghost predicate InFlight(w: World, u: UploadId) {
    u in w.ledger.uploads && w.ledger.uploads[u].state in {Preparing, Paying, Partial}
  }

  // A resumed task that has written its completion and is about to write recovery over it.
  ghost predicate Overtaken(w: World, u: UploadId, p: Phase) {
    p == Failing(NeedsRecovery, true) && u in w.ledger.uploads && w.ledger.uploads[u].state == Complete
  }

  // Journal row i settled call k successfully under this hash.
  ghost predicate PaidRow(w: World, i: int, u: UploadId, o: Origin, hash: string) {
    && 0 <= i < |w.ledger.txs| && i < |w.origins|
    && var t := w.ledger.txs[i];
       && t.upload == u && w.origins[i] == o && t.hash == Some(hash) && t.state == Settled
       && RefOf(t) in w.mined && w.mined[RefOf(t)].success
  }

  ghost predicate CallPaid(w: World, u: UploadId, o: Origin, hash: string) {
    exists i :: PaidRow(w, i, u, o, hash)
  }

  function Current(s: Stage): Option<nat> {
    if s.Idle? then None else Some(s.i)
  }

  ghost predicate RowsOfRun(w: World, u: UploadId, run: nat, p: Phase)
    requires p.Signing? && |w.origins| == |w.ledger.txs|
  {
    forall i :: 0 <= i < |w.ledger.txs| && w.ledger.txs[i].upload == u ==>
      && w.origins[i].run == run
      && (if Current(p.stage) == Some(i) then w.origins[i].step == p.next
          else w.origins[i].step < p.next && w.ledger.txs[i].state == Settled)
  }

  ghost predicate StageOk(w: World, u: UploadId, run: nat, p: Phase)
    requires p.Signing? && |w.origins| == |w.ledger.txs|
  {
    !p.stage.Idle? ==>
      && p.next < |p.calls|
      && p.stage.i < |w.ledger.txs|
      && var t := w.ledger.txs[p.stage.i];
         && t.upload == u && t.network == w.ledger.network
         && w.origins[p.stage.i] == Origin(run, p.next, p.calls[p.next])
         && t.state == (if p.stage.Intended? then Reserved else Signed)
         && (p.stage.Sent? && t.hash.Some? ==> RefOf(t) in w.broadcast)
  }

  // What is still to be reserved fits beside what is.
  ghost predicate BudgetOk(w: World, u: UploadId, p: Phase)
    requires p.Signing? && p.next <= |p.calls| && (!p.stage.Idle? ==> p.next < |p.calls|)
  {
    && u.approval in w.ledger.approvals
    && var row := w.ledger.approvals[u.approval];
       row.reservedStorage + Sum(p.calls[if p.stage.Idle? then p.next else p.next + 1..], UpperOf())
         <= row.definition.StorageCap()
  }

  ghost predicate SigningOk(w: World, u: UploadId, run: nat, p: Phase)
    requires p.Signing? && |w.origins| == |w.ledger.txs|
  {
    && p.next <= |p.calls| && |p.hashes| == p.next
    && StageOk(w, u, run, p)
    && RowsOfRun(w, u, run, p)
    && (forall k :: 0 <= k < p.next ==> CallPaid(w, u, Origin(run, k, p.calls[k]), p.hashes[k]))
    && p.paid == Spent(w, u)
    && BudgetOk(w, u, p)
  }

  ghost predicate TaskOk(w: World, u: UploadId, t: Task)
    requires |w.origins| == |w.ledger.txs|
  {
    !t.phase.Finished? ==>
      && (InFlight(w, u) || Overtaken(w, u, t.phase))
      && match t.phase
         case Preparation => w.ledger.uploads[u].state == Preparing && w.ledger.uploads[u].leaseKey == t.leaseKey
         case Signing(_, _, _, _, _) => w.ledger.uploads[u].leaseKey == t.leaseKey && SigningOk(w, u, t.run, t.phase)
         case Storing(paid, _) => Sealed(w, u, paid)
         case Succeeding(receipt, _) => Sealed(w, u, receipt)
         case Failing(_, _) => true
  }

  ghost predicate SessionOk(w: World, u: UploadId, s: Session) {
    InFlight(w, u) && Sealed(w, u, s.paid)
  }

  ghost predicate CompleteOk(w: World, u: UploadId)
    requires u in w.ledger.uploads
  {
    w.ledger.uploads[u].state == Complete ==>
      w.ledger.uploads[u].result.Some? && Sealed(w, u, w.ledger.uploads[u].result.value)
  }

  // A task with a retained session is on its way out.
  predicate LeavingPartial(p: Phase) {
    p.Finished? || (p.Failing? && p.failure.IsPartial?)
  }

  // -- The process --

  ghost predicate LockOk(g: Gateway) {
    && (g.lock.Some? ==> g.lock.value in g.running)
    && (forall u :: u in g.running ==> (g.running[u].phase.Signing? <==> g.lock == Some(u)))
  }

  ghost predicate RunsOk(g: Gateway) {
    && (forall u :: u in g.running ==> g.running[u].run < g.nextRun)
    && (forall i :: 0 <= i < |g.world.origins| ==> g.world.origins[i].run < g.nextRun)
  }

  ghost predicate TasksOk(g: Gateway)
    requires |g.world.origins| == |g.world.ledger.txs|
  {
    forall u :: u in g.running ==> TaskOk(g.world, u, g.running[u])
  }

  ghost predicate SessionsOk(g: Gateway) {
    forall u :: u in g.resumes ==>
      SessionOk(g.world, u, g.resumes[u]) && (u in g.running ==> LeavingPartial(g.running[u].phase))
  }

  ghost predicate CompletesOk(w: World) {
    forall u :: u in w.ledger.uploads ==> CompleteOk(w, u)
  }

  ghost predicate Inv(g: Gateway) {
    && LI.Inv(g.world.ledger)
    && WorldOk(g.world)
    && LockOk(g)
    && RunsOk(g)
    && TasksOk(g)
    && SessionsOk(g)
    && CompletesOk(g.world)
  }

  lemma StartOk(network: string, guard: bool, now: int)
    ensures Inv(Start(network, guard, now))
  {
    hide LI.Inv;
    LI.EmptyLedger(network, guard);
  }

  // -- Framing: an upload whose rows and row in `uploads` did not change --

  ghost predicate RowsSame(w: World, v: World, u: UploadId) {
    && |w.ledger.txs| <= |v.ledger.txs|
    && |w.origins| == |w.ledger.txs| && |v.origins| == |v.ledger.txs|
    && (forall i :: 0 <= i < |w.ledger.txs| ==>
          && v.ledger.txs[i].upload == w.ledger.txs[i].upload
          && (w.ledger.txs[i].upload == u ==> v.ledger.txs[i] == w.ledger.txs[i] && v.origins[i] == w.origins[i]))
    && (forall i :: |w.ledger.txs| <= i < |v.ledger.txs| ==> v.ledger.txs[i].upload != u)
  }

  ghost predicate ChainGrows(w: World, v: World) {
    && w.broadcast <= v.broadcast
    && (forall r :: r in w.mined ==> r in v.mined && v.mined[r] == w.mined[r])
  }

  ghost predicate SameFor(w: World, v: World, u: UploadId) {
    && RowsSame(w, v, u)
    && ChainGrows(w, v)
    && (u in w.ledger.uploads ==> u in v.ledger.uploads && v.ledger.uploads[u] == w.ledger.uploads[u])
    && (u in v.ledger.uploads && v.ledger.uploads[u].state == Complete ==> u in w.ledger.uploads)
  }

  ghost predicate RoomKept(w: World, v: World, a: string) {
    && v.ledger.network == w.ledger.network
    && (a in w.ledger.approvals ==>
          && a in v.ledger.approvals
          && v.ledger.approvals[a].definition == w.ledger.approvals[a].definition
          && v.ledger.approvals[a].reservedStorage <= w.ledger.approvals[a].reservedStorage)
  }

  lemma {:induction false} SumPrefixSame(a: seq<TxRow>, b: seq<TxRow>, f: TxRow -> nat)
    requires |a| == |b|
    requires forall i :: 0 <= i < |a| ==> f(a[i]) == f(b[i])
    ensures Sum(a, f) == Sum(b, f)
  {
    if |a| > 0 {
      SumPrefixSame(a[..|a| - 1], b[..|b| - 1], f);
    }
  }

  lemma SumSame(a: seq<TxRow>, b: seq<TxRow>, f: TxRow -> nat)
    requires |a| <= |b|
    requires forall i :: 0 <= i < |a| ==> f(a[i]) == f(b[i])
    requires forall i :: |a| <= i < |b| ==> f(b[i]) == 0
    ensures Sum(a, f) == Sum(b, f)
  {
    var front, back := b[..|a|], b[|a|..];
    assert b == front + back;
    SumConcat(front, back, f);
    forall i | 0 <= i < |a| ensures f(a[i]) == f(front[i]) {
      assert front[i] == b[i];
    }
    SumPrefixSame(a, front, f);
    forall i | 0 <= i < |back| ensures f(back[i]) == 0 {
      assert back[i] == b[|a| + i];
    }
    SumZero(back, f);
  }

  lemma SpentSame(w: World, v: World, u: UploadId)
    requires RowsSame(w, v, u)
    ensures Spent(v, u) == Spent(w, u)
  {
    SumSame(w.ledger.txs, v.ledger.txs, SpentStorage(u));
    SumSame(w.ledger.txs, v.ledger.txs, SpentGas(u));
  }

  lemma SealedSame(w: World, v: World, u: UploadId, r: Receipt)
    requires RowsSame(w, v, u) && Sealed(w, u, r)
    ensures Sealed(v, u, r)
  {
    SpentSame(w, v, u);
  }

  ghost predicate PaidRowsKept(w: World, v: World, u: UploadId) {
    && |w.ledger.txs| <= |v.ledger.txs|
    && |w.origins| == |w.ledger.txs| && |v.origins| == |v.ledger.txs|
    && (forall i :: 0 <= i < |w.ledger.txs| && w.ledger.txs[i].upload == u && w.ledger.txs[i].state == Settled ==>
          v.ledger.txs[i] == w.ledger.txs[i] && v.origins[i] == w.origins[i])
  }

  lemma CallPaidSame(w: World, v: World, u: UploadId, o: Origin, hash: string)
    requires PaidRowsKept(w, v, u) && ChainGrows(w, v) && CallPaid(w, u, o, hash)
    ensures CallPaid(v, u, o, hash)
  {
    var i :| PaidRow(w, i, u, o, hash);
    assert PaidRow(v, i, u, o, hash);
  }

  lemma SigningSame(w: World, v: World, u: UploadId, run: nat, p: Phase)
    requires p.Signing? && |w.origins| == |w.ledger.txs| && SigningOk(w, u, run, p)
    requires SameFor(w, v, u) && RoomKept(w, v, u.approval)
    ensures SigningOk(v, u, run, p)
  {
    SpentSame(w, v, u);
    forall k | 0 <= k < p.next ensures CallPaid(v, u, Origin(run, k, p.calls[k]), p.hashes[k]) {
      CallPaidSame(w, v, u, Origin(run, k, p.calls[k]), p.hashes[k]);
    }
  }

  lemma TaskSame(w: World, v: World, u: UploadId, t: Task)
    requires |w.origins| == |w.ledger.txs| && TaskOk(w, u, t)
    requires SameFor(w, v, u)
    requires t.phase.Signing? ==> RoomKept(w, v, u.approval)
    ensures TaskOk(v, u, t)
  {
    hide SigningOk, RowsSame;
    match t.phase {
      case Signing(_, _, _, _, _) => SigningSame(w, v, u, t.run, t.phase);
      case Storing(paid, _) => SealedSame(w, v, u, paid);
      case Succeeding(receipt, _) => SealedSame(w, v, u, receipt);
      case _ =>
    }
  }

  // Everything said about an upload other than the acting one survives.
  lemma OthersKept(g: Gateway, v: World, u: UploadId)
    requires Inv(g)
    requires SameFor(g.world, v, u)
    requires u in g.running && g.running[u].phase.Signing? ==> RoomKept(g.world, v, u.approval)
    ensures |v.origins| == |v.ledger.txs|
    ensures u in g.running ==> TaskOk(v, u, g.running[u])
    ensures u in g.resumes ==> SessionOk(v, u, g.resumes[u])
    ensures u in v.ledger.uploads ==> CompleteOk(v, u)
  {
    hide RowsSame, RowOk, OriginsOrdered, LI.Inv, Sealed, TaskOk;
    assert |v.origins| == |v.ledger.txs| by { RowsSameLengths(g.world, v, u); }
    if u in g.running {
      TaskSame(g.world, v, u, g.running[u]);
    }
    if u in g.resumes {
      SealedSame(g.world, v, u, g.resumes[u].paid);
    }
    if u in v.ledger.uploads && v.ledger.uploads[u].state == Complete {
      assert CompleteOk(g.world, u);
      SealedSame(g.world, v, u, v.ledger.uploads[u].result.value);
    }
  }

  lemma RowsSameLengths(w: World, v: World, u: UploadId)
    requires RowsSame(w, v, u)
    ensures |v.origins| == |v.ledger.txs|
  {
  }

  // -- An acting task --

  lemma Acted(g: Gateway, g': Gateway, id: UploadId)
    requires Inv(g)
    requires id in g.running
    requires g'.running.Keys == g.running.Keys && forall u :: u in g.running && u != id ==> g'.running[u] == g.running[u]
    requires g'.resumes == g.resumes
    requires LI.Inv(g'.world.ledger) && WorldOk(g'.world)
    requires LockOk(g') && RunsOk(g')
    requires forall u :: u != id ==> SameFor(g.world, g'.world, u)
    requires forall u :: u in g.running && u != id && g.running[u].phase.Signing? ==> RoomKept(g.world, g'.world, u.approval)
    requires TaskOk(g'.world, id, g'.running[id])
    requires id in g.resumes ==> SessionOk(g'.world, id, g.resumes[id]) && LeavingPartial(g'.running[id].phase)
    requires id in g'.world.ledger.uploads ==> CompleteOk(g'.world, id)
    ensures Inv(g')
  {
    hide SameFor, RoomKept, LI.Inv, TaskOk, SessionOk, CompleteOk;
    forall u | u in g'.running ensures TaskOk(g'.world, u, g'.running[u]) {
      if u != id {
        OthersKept(g, g'.world, u);
      }
    }
    forall u | u in g'.resumes
      ensures SessionOk(g'.world, u, g'.resumes[u]) && (u in g'.running ==> LeavingPartial(g'.running[u].phase))
    {
      if u != id {
        OthersKept(g, g'.world, u);
      }
    }
    forall u | u in g'.world.ledger.uploads ensures CompleteOk(g'.world, u) {
      if u != id {
        OthersKept(g, g'.world, u);
      }
    }
  }

  // An event that only moves one task, in memory.
  lemma Moved(g: Gateway, g': Gateway, id: UploadId)
    requires Inv(g)
    requires id in g.running
    requires g'.running.Keys == g.running.Keys && forall u :: u in g.running && u != id ==> g'.running[u] == g.running[u]
    requires g'.running[id].run == g.running[id].run && g'.nextRun == g.nextRun
    requires g'.world == g.world
    requires LockOk(g')
    requires TaskOk(g.world, id, g'.running[id])
    requires forall u :: u in g'.resumes && (u != id || u in g.resumes) ==> u in g.resumes && g'.resumes[u] == g.resumes[u]
    requires id in g'.resumes ==> SessionOk(g.world, id, g'.resumes[id]) && LeavingPartial(g'.running[id].phase)
    ensures Inv(g')
  {
    hide LI.Inv, TaskOk, SessionOk, WorldOk, CompletesOk;
  }

  lemma FailKeeps(g: Gateway, id: UploadId, c: ErrorClass, afterResume: bool)
    requires Inv(g)
    requires id in g.running && !g.running[id].phase.Finished? && !g.running[id].phase.Failing? && id !in g.resumes
    ensures Inv(Fail(g, id, c, afterResume))
  {
    hide SigningOk, Sealed, LI.Inv, OriginsOrdered, RowOk, Journaled, SessionOk, CompletesOk;
    Moved(g, Fail(g, id, c, afterResume), id);
  }
}
