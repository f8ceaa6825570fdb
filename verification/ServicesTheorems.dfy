// What the admin service and the gateway promise together, over every run of both.
module ServicesTheorems {
  import opened Outcomes
  import opened Amounts
  import opened Contract
  import opened Jobs
  import opened Services
  import G = Gateway
  import GI = GatewayInvariant
  import GS = GatewaySigning
  import GT = GatewayTheorems
  import L = Ledger
  import LI = LedgerInvariant
  import Signer

  // -- The gateway's part of a run is a run of the gateway --

  function GateEvents(s: Services, steps: seq<Step>): seq<G.Event> {
    if |steps| == 0 then []
    else
      var front := steps[..|steps| - 1];
      var e := GateEvent(Run(s, front), steps[|steps| - 1]);
      if e.Some? then GateEvents(s, front) + [e.value] else GateEvents(s, front)
  }

  lemma {:induction false} GateRun(s: Services, steps: seq<Step>)
    ensures Run(s, steps).gate == G.Run(s.gate, GateEvents(s, steps))
  {
    hide G.Apply, GateEvent, Admin;
    if |steps| > 0 {
      var front := steps[..|steps| - 1];
      GateRun(s, front);
      var r, e := Run(s, front), GateEvent(Run(s, front), steps[|steps| - 1]);
      assert Run(s, steps).gate == GateAfter(r, steps[|steps| - 1]);
      if e.Some? {
        GateRunSnoc(s.gate, GateEvents(s, front), e.value);
      }
    }
  }

  lemma GateRunSnoc(g: G.Gateway, events: seq<G.Event>, e: G.Event)
    ensures G.Run(g, events + [e]) == G.Apply(G.Run(g, events), e)
  {
    hide G.Apply;
    assert (events + [e])[..|events|] == events;
  }

  // -- The invariant --

  ghost predicate ClaimsOk(s: Services) {
    && (forall i :: 0 <= i < |s.claims| ==>
          && s.claims[i].id in s.queue
          && 0 < s.claims[i].attempts <= s.queue[s.claims[i].id].attempts
          && s.claims[i].kind == s.queue[s.claims[i].id].kind
          && s.claims[i].video == s.queue[s.claims[i].id].video)
    && (forall i, j :: 0 <= i < j < |s.claims| && s.claims[i].id == s.claims[j].id ==>
          s.claims[i].attempts < s.claims[j].attempts)
  }

  ghost predicate WritesOk(s: Services) {
    && (forall i :: 0 <= i < |s.writes| ==>
          s.writes[i] in s.claims && s.writes[i].id in s.queue && s.writes[i].attempts <= s.queue[s.writes[i].id].attempts)
    && (forall i, j :: 0 <= i < j < |s.writes| && s.writes[i].id == s.writes[j].id ==>
          s.writes[i].attempts <= s.writes[j].attempts)
  }

  // An activation never outlives the job lease it came from, nor any later lease of the job.
  ghost predicate MessageOk(s: Services, m: PaymentLease) {
    && m.jobId in s.queue
    && 0 < m.generation <= s.queue[m.jobId].attempts
    && m.expiresAt <= Seconds(s.clock + s.lease)
    && (s.queue[m.jobId].status == Running && s.queue[m.jobId].expires.Some? ==>
          m.expiresAt <= Seconds(s.queue[m.jobId].expires.value))
  }

  ghost predicate MessagesOk(s: Services) {
    forall m :: m in s.activations ==> MessageOk(s, m)
  }

  function MessageOf(quote: string, row: L.LeaseRow): PaymentLease {
    PaymentLease(quote, row.jobId, row.owner, row.generation, row.expiresAt)
  }

  ghost predicate LeasesOk(s: Services) {
    forall a :: a in s.gate.world.ledger.leases ==> MessageOf(a, s.gate.world.ledger.leases[a]) in s.activations
  }

  ghost predicate Revoked(g: G.Gateway, quote: string) {
    quote in g.world.ledger.approvals && g.world.ledger.approvals[quote].state == L.CancelledUnpaid
  }

  ghost predicate ConfirmedOk(s: Services) {
    forall m :: m in s.confirmed ==> Revoked(s.gate, m.quote)
  }

  // The open failure: its job still has the claim, and its quote is still the job's.
  ghost predicate OpenOk(s: Services) {
    s.open.Some? ==>
      var o := s.open.value;
      && o.claim in s.claims
      && o.claim.id in s.queue
      && s.queue[o.claim.id].attempts == o.claim.attempts && s.queue[o.claim.id].status == Running
      && (o.approval && Pays(o.claim.kind) ==> o.quote == QuoteOf(s, s.queue[o.claim.id]))
      && (o.quote.Some? ==> o.approval && Pays(o.claim.kind))
      && (o.quote.Some? && o.unpaid ==> Revoked(s.gate, o.quote.value))
  }

  ghost predicate Inv(s: Services) {
    && GI.Inv(s.gate)
    && s.gate.now == Seconds(s.clock)
    && Valid(s.queue, s.clock, s.lease)
    && ClaimsOk(s)
    && WritesOk(s)
    && MessagesOk(s)
    && LeasesOk(s)
    && ConfirmedOk(s)
    && OpenOk(s)
  }

  lemma StartOk(network: string, guard: bool, clock: int, lease: nat)
    ensures Inv(Start(network, guard, clock, lease))
  {
    GI.StartOk(network, guard, Seconds(clock));
  }

  // -- The gateway's half of a step --

  lemma {:induction false} GateKept(s: Services, step: Step)
    requires GI.Inv(s.gate)
    ensures GI.Inv(GateAfter(s, step)) && GT.Forward(s.gate, GateAfter(s, step))
  {
    hide GI.Inv, G.Apply, LI.Evolves, Internal, Cancelled;
    GT.SameForward(s.gate.world.ledger);
    var e := GateEvent(s, step);
    if e.Some? {
      GS.StepKeeps(s.gate, e.value);
      GT.StepForward(s.gate, e.value);
    }
  }

  lemma RevokedKept(g: G.Gateway, h: G.Gateway, quote: string)
    requires GT.Forward(g, h) && Revoked(g, quote)
    ensures Revoked(h, quote)
  {
  }

  lemma TimeOnlyTicks(g: G.Gateway, e: G.Event)
    requires !e.Tick?
    ensures G.Apply(g, e).now == g.now
  {
    hide L.Reserve, L.Settle, L.Admit, L.RecordSigned, L.Finish, L.Activate, L.Approve, L.CancelUnpaid, L.Initialize, L.CheckStorage,
         Signer.StorageUpper, Signer.Calls, Signer.Consistent, G.ChainAllows, G.SettledStorage, G.Live, G.FinalState;
  }

  // Activations are the only source of gateway leases.
  lemma {:induction false} LeasesKept(s: Services, step: Step)
    requires LeasesOk(s)
    ensures var leases := GateAfter(s, step).world.ledger.leases;
      forall a :: a in leases ==> MessageOf(a, leases[a]) in s.activations
  {
    hide G.Apply;
    var e := GateEvent(s, step);
    if e.Some? {
      if e.value.ActivateRequest? {
        Activated(s.gate.world.ledger, s.gate.now, e.value.lease);
        ActivateApplied(s.gate, e.value.lease);
      } else {
        GT.LeaseWriters(s.gate, e.value);
      }
    }
  }

  lemma Activated(l: L.Ledger, now: int, m: PaymentLease)
    ensures var n := L.Activate(l, now, m).Tables(l);
      n.leases == l.leases || (m.generation > 0 && n.leases == l.leases[m.quoteId := L.LeaseRow(m.jobId, m.owner, m.generation, m.expiresAt)])
  {
  }

  lemma ActivateApplied(g: G.Gateway, m: PaymentLease)
    ensures G.Apply(g, G.ActivateRequest(m)).world.ledger == L.Activate(g.world.ledger, g.now, m).Tables(g.world.ledger)
  {
  }

  lemma {:induction false} ClockKept(s: Services, step: Step)
    requires s.gate.now == Seconds(s.clock)
    ensures GateAfter(s, step).now == Seconds(Admin(s, step).clock)
  {
    hide G.Apply, Write, DoClaim, DoActivate, DoFailBegin, DoFailCommit, Cancelled;
    var e := GateEvent(s, step);
    if e.Some? {
      if e.value.Tick? {
        Ticked(s.gate, e.value.to);
      } else {
        TimeOnlyTicks(s.gate, e.value);
      }
    }
    ClockOnlyTicks(s, step);
  }

  lemma Ticked(g: G.Gateway, to: int)
    ensures G.Apply(g, G.Tick(to)).now == if to > g.now then to else g.now
  {
  }

  lemma ClockOnlyTicks(s: Services, step: Step)
    ensures Admin(s, step).lease == s.lease
    ensures Admin(s, step).clock == if step.Clock? && step.to > s.clock then step.to else s.clock
    ensures Admin(s, step).gate == s.gate
  {
    hide Cancelled;
  }

  lemma {:induction false} ConfirmedKept(s: Services, step: Step)
    requires GI.Inv(s.gate) && ConfirmedOk(s)
    ensures forall m :: m in Admin(s, step).confirmed ==> Revoked(GateAfter(s, step), m.quote)
  {
    hide GI.Inv, G.Apply, Revoked, Internal;
    var t := Admin(s, step);
    ConfirmedWriters(s, step);
    forall m | m in t.confirmed ensures Revoked(GateAfter(s, step), m.quote) {
      if m in s.confirmed {
        GateKept(s, step);
        RevokedKept(s.gate, GateAfter(s, step), m.quote);
      } else {
        CancelRevokes(s.gate, m);
      }
    }
  }

  lemma CancelRevokes(g: G.Gateway, m: CancelMessage)
    ensures Cancelled(g, m).Done? && Cancelled(g, m).value ==> Revoked(G.Apply(g, G.CancelRequest(m.quote, m.key)), m.quote)
  {
  }

  lemma ConfirmedWriters(s: Services, step: Step)
    ensures forall m :: m in Admin(s, step).confirmed && m !in s.confirmed ==>
      step == DeliverCancel(m) && m in s.cancels && Cancelled(s.gate, m).Done? && Cancelled(s.gate, m).value
  {
    hide Cancelled, Owns;
  }

  // -- The admin database's half --

  // Nobody has claimed the job since.
  ghost predicate Latest(s: Services, c: Claim) {
    c in s.claims && c.id in s.queue && s.queue[c.id].attempts == c.attempts
  }

  ghost predicate Moved(s: Services, t: Services) {
    && t.clock == s.clock && t.lease == s.lease
    && Moves(s.queue, t.queue, s.clock, s.lease)
    && (forall c :: c in s.claims ==> c in t.claims)
  }

  ghost predicate AdminOk(s: Services) {
    && Valid(s.queue, s.clock, s.lease)
    && ClaimsOk(s)
    && WritesOk(s)
    && MessagesOk(s)
  }

  // A step that writes the queue, behind the fence or not.
  ghost predicate Wrote(s: Services, t: Services) {
    && Moved(s, t)
    && t.claims == s.claims && t.activations == s.activations
    && (t.writes == s.writes || exists c :: Latest(s, c) && t.writes == s.writes + [c])
  }

  lemma WritesMoved(s: Services, t: Services)
    requires WritesOk(s) && Moved(s, t)
    requires t.writes == s.writes || exists c :: Latest(s, c) && t.writes == s.writes + [c]
    ensures WritesOk(t)
  {
    hide RowValid;
    if t.writes != s.writes {
      var c :| Latest(s, c) && t.writes == s.writes + [c];
    }
  }

  lemma MessagesMoved(s: Services, t: Services)
    requires MessagesOk(s) && Moved(s, t) && t.activations == s.activations
    ensures MessagesOk(t)
  {
    hide RowValid, Valid;
    forall m | m in t.activations ensures MessageOk(t, m) {
      assert MessageOk(s, m) && RowMoves(s.queue[m.jobId], t.queue[m.jobId], s.clock, s.lease);
    }
  }

  lemma WroteKeeps(s: Services, t: Services)
    requires AdminOk(s) && Wrote(s, t)
    ensures AdminOk(t)
  {
    hide MessagesOk, WritesOk, RowValid;
    WritesMoved(s, t);
    MessagesMoved(s, t);
    assert ClaimsOk(t);
  }

  lemma ClaimKeeps(s: Services, id: string, worker: string)
    requires AdminOk(s) && id in s.queue
    ensures AdminOk(DoClaim(s, id, worker))
  {
    hide MessagesOk, WritesOk, RowValid;
    var t := DoClaim(s, id, worker);
    ClaimMoves(s.queue, s.clock, s.lease, worker, id);
    assert Moved(s, t);
    WritesMoved(s, t);
    MessagesMoved(s, t);
    assert ClaimsOk(t);
  }

  lemma ActivateKeeps(s: Services, c: Claim)
    requires AdminOk(s)
    ensures AdminOk(DoActivate(s, c))
  {
    var t := DoActivate(s, c);
    if t != s {
      forall m | m in t.activations ensures MessageOk(t, m) {
        if m == ActivationOf(s, c) {
          assert RowValid(s.queue[c.id], s.clock, s.lease);
        } else {
          assert MessageOk(s, m);
        }
      }
    }
  }

  lemma LaterKeeps(s: Services, to: int)
    requires AdminOk(s) && to > s.clock
    ensures AdminOk(s.(clock := to))
  {
    hide ClaimsOk, WritesOk;
    var t := s.(clock := to);
    LaterValid(s.queue, s.clock, to, s.lease);
    assert ClaimsOk(t) && WritesOk(t) by { SameHistory(s, t); }
    forall m | m in t.activations ensures MessageOk(t, m) {
      assert MessageOk(s, m);
    }
  }

  lemma SameHistory(s: Services, t: Services)
    requires t.claims == s.claims && t.writes == s.writes && t.queue == s.queue
    ensures ClaimsOk(s) ==> ClaimsOk(t)
    ensures WritesOk(s) ==> WritesOk(t)
  {
  }

  lemma FencedWrote(s: Services, c: Claim, q: Queue)
    requires AdminOk(s)
    requires Fenced(s, c) ==> Moves(s.queue, q, s.clock, s.lease)
    ensures Wrote(s, Write(s, c, q))
  {
    SameMoves(s.queue, s.clock, s.lease);
    if Fenced(s, c) {
      assert Latest(s, c);
    }
  }

  lemma InterruptMoves(q: Queue, now: int, lease: nat, id: string, worker: string)
    requires Valid(q, now, lease)
    ensures Moves(q, Interrupt(q, now, id, worker), now, lease)
  {
    SameMoves(q, now, lease);
    if Interrupt(q, now, id, worker) != q {
      ReleaseMoves(q, now, lease, id, Queued, now, q[id].maxAttempts);
    }
  }

  lemma RequeueMoves(q: Queue, now: int, lease: nat, id: string)
    requires Valid(q, now, lease)
    ensures Moves(q, Requeue(q, now, id), now, lease)
  {
    SameMoves(q, now, lease);
    if id in q {
      ReleaseMoves(q, now, lease, id, Queued, now, if q[id].maxAttempts < q[id].attempts + 1 then q[id].attempts + 1 else q[id].maxAttempts);
    }
  }

  lemma FencedMoves(q: Queue, now: int, lease: nat, c: Claim, delay: int)
    requires Valid(q, now, lease) && Owns(q, now, c)
    ensures Moves(q, Succeed(q, now, c), now, lease)
    ensures Moves(q, RetryLater(q, now, c, delay), now, lease)
  {
    ReleaseMoves(q, now, lease, c.id, Succeeded, q[c.id].runAfter, q[c.id].maxAttempts);
    ReleaseMoves(q, now, lease, c.id, Queued, now + delay, q[c.id].maxAttempts);
  }

  lemma {:induction false} WriterWrote(s: Services, step: Step)
    requires AdminOk(s) && !step.ClaimJob?
    ensures Wrote(s, Writer(s, step))
  {
    hide Valid, Moves, Owns, ClaimsOk, WritesOk, MessagesOk, Acquire, Renew, Succeed, RetryLater, Interrupt, Recover, Requeue, Enqueue;
    var q := s.queue;
    SameMoves(q, s.clock, s.lease);
    match step {
      case RenewJob(c) => RenewMoves(q, s.clock, s.lease, c); FencedWrote(s, c, Renew(q, s.clock, s.lease, c));
      case FencedWrite(c) => FencedWrote(s, c, q);
      case SucceedJob(c) =>
        if Fenced(s, c) { FencedMoves(q, s.clock, s.lease, c, 0); }
        FencedWrote(s, c, Succeed(q, s.clock, c));
      case RetryJob(c, delay) =>
        if Fenced(s, c) { FencedMoves(q, s.clock, s.lease, c, delay); }
        FencedWrote(s, c, RetryLater(q, s.clock, c, delay));
      case InterruptJob(id, worker) => InterruptMoves(q, s.clock, s.lease, id, worker);
      case RecoverJobs => RecoverMoves(q, s.clock, s.lease);
      case RequeueJob(id) => RequeueMoves(q, s.clock, s.lease, id);
      case EnqueueJob(id, kind, video, max, quote) => if IsJobId(id) { EnqueueMoves(q, s.clock, s.lease, id, kind, video, max, quote); }
      case _ =>
    }
  }

  lemma CommitWrote(s: Services)
    requires AdminOk(s) && OpenOk(s) && s.open.Some?
    ensures Wrote(s, DoFailCommit(s, s.open.value))
  {
    hide Moves, Valid, ClaimsOk, WritesOk, MessagesOk;
    var c := s.open.value.claim;
    ReleaseMoves(s.queue, s.clock, s.lease, c.id, Failed, s.queue[c.id].runAfter, s.queue[c.id].maxAttempts);
    assert Latest(s, c);
  }

  lemma {:induction false} AdminKeeps(s: Services, step: Step)
    requires AdminOk(s) && OpenOk(s)
    ensures AdminOk(Admin(s, step))
  {
    hide Writer, AdminOk, Wrote, DoFailCommit, DoActivate, DoClaim, Cancelled;
    var t := Admin(s, step);
    SameAdmin(s, t);
    match step {
      case Clock(to) => if to > s.clock { LaterKeeps(s, to); }
      case SendActivation(c) => ActivateKeeps(s, c);
      case FailCommit => if t != s { CommitWrote(s); WroteKeeps(s, t); }
      case ClaimJob(id, worker) => if t != s { ClaimOpen(s, id, worker); ClaimKeeps(s, id, worker); }
      case _ => if s.open.None? { WriterWrote(s, step); WroteKeeps(s, Writer(s, step)); }
    }
  }

  lemma ClaimOpen(s: Services, id: string, worker: string)
    ensures Admin(s, ClaimJob(id, worker)) ==
      if s.open.None? && IsNext(s.queue, s.clock, id) then DoClaim(s, id, worker) else s
  {
  }

  ghost predicate SameRecords(s: Services, t: Services) {
    t.clock == s.clock && t.lease == s.lease && t.queue == s.queue && t.claims == s.claims && t.writes == s.writes
      && t.activations == s.activations
  }

  lemma SameAdmin(s: Services, t: Services)
    requires AdminOk(s)
    ensures SameRecords(s, t) ==> AdminOk(t)
  {
    if SameRecords(s, t) {
      SameHistory(s, t);
      forall m | m in t.activations ensures MessageOk(t, m) {
        assert MessageOk(s, m);
      }
    }
  }

  // While a failure is open the claim, its row and its quote stand still.
  lemma OpenStands(s: Services, step: Step)
    requires s.open.Some?
    ensures var t := Admin(s, step);
      && (!step.FailCommit? ==> t.queue == s.queue && t.videos == s.videos && t.claims == s.claims)
      && (t.open.Some? ==> t.open.value.(unpaid := s.open.value.unpaid) == s.open.value)
      && (step.FailCommit? ==> t.open.None? || t == s)
  {
    hide Cancelled, Writer;
  }

  ghost predicate Begun(s: Services, step: Step, t: Services)
    requires step.FailBegin?
  {
    Fenced(s, step.claim) && Latest(s, step.claim) && s.queue[step.claim.id].status == Running && t == DoFailBegin(s, step.claim, step.approval, step.recovery)
  }

  lemma OpenBegins(s: Services, step: Step)
    requires s.open.None?
    ensures Admin(s, step).open.Some? ==> step.FailBegin? && Begun(s, step, Admin(s, step))
  {
    hide Cancelled, DoFailBegin, Acquire, Renew, Succeed, RetryLater, Interrupt, Recover, Requeue, Enqueue;
  }

  lemma UnpaidMeansConfirmed(s: Services, step: Step)
    requires s.open.Some?
    ensures Admin(s, step).open.Some? && Admin(s, step).open.value.unpaid && !s.open.value.unpaid ==>
      && s.open.value.quote.Some?
      && CancelMessage(s.open.value.quote.value, KeyOf(s.open.value.claim)) in s.confirmed
  {
    hide Cancelled, Writer;
  }

  lemma {:induction false} OpenKept(s: Services, step: Step)
    requires GI.Inv(s.gate) && ConfirmedOk(s) && OpenOk(s)
    ensures OpenOk(Apply(s, step))
  {
    hide Admin, GateAfter, GI.Inv, G.Apply, Revoked, KeyOf, Owns, GT.Forward;
    GateKept(s, step);
    if s.open.Some? {
      OpenStands(s, step);
      UnpaidMeansConfirmed(s, step);
      if s.open.value.quote.Some? {
        RevokedForward(s, step, s.open.value.quote.value);
      }
    } else {
      OpenBegins(s, step);
    }
  }

  lemma {:induction false} RevokedForward(s: Services, step: Step, quote: string)
    requires GI.Inv(s.gate)
    ensures Revoked(s.gate, quote) ==> Revoked(GateAfter(s, step), quote)
  {
    hide GI.Inv, GateAfter, Revoked, GT.Forward;
    GateKept(s, step);
    if Revoked(s.gate, quote) {
      RevokedKept(s.gate, GateAfter(s, step), quote);
    }
  }

  lemma {:induction false} StepKeeps(s: Services, step: Step)
    requires Inv(s)
    ensures Inv(Apply(s, step))
  {
    hide Admin, GateAfter, GI.Inv, Revoked, ClaimsOk, WritesOk, MessagesOk, OpenOk, Valid, GT.Forward;
    var t := Apply(s, step);
    GateKept(s, step);
    ClockKept(s, step);
    AdminKeeps(s, step);
    OpenKept(s, step);
    LeasesKept(s, step);
    ConfirmedKept(s, step);
    ActivationsGrow(s, step);
    WithGate(Admin(s, step), GateAfter(s, step));
  }

  lemma ActivationsGrow(s: Services, step: Step)
    ensures s.activations <= Admin(s, step).activations
  {
    hide Cancelled, Owns;
  }

  lemma WithGate(t: Services, h: G.Gateway)
    requires AdminOk(t)
    ensures AdminOk(t.(gate := h))
  {
    SameAdmin(t, t.(gate := h));
  }

  lemma {:induction false} RunKeeps(s: Services, steps: seq<Step>)
    requires Inv(s)
    ensures Inv(Run(s, steps))
  {
    hide Inv, Apply;
    if |steps| > 0 {
      RunKeeps(s, steps[..|steps| - 1]);
      StepKeeps(Run(s, steps[..|steps| - 1]), steps[|steps| - 1]);
    }
  }

  // -- Fencing across the services --

  // The job's lease of attempt `n` has run out, so its next owner may claim it.
  ghost predicate Lapsed(s: Services, id: string, n: nat) {
    id in s.queue && (n < s.queue[id].attempts
      || (n == s.queue[id].attempts && !(s.queue[id].status == Running && s.queue[id].expires.Some? && s.queue[id].expires.value > s.clock)))
  }

  lemma LapsedMoves(s: Services, t: Services, id: string, n: nat)
    requires s.clock <= t.clock
    requires Lapsed(s, id, n)
    requires t.clock == s.clock ==> Moves(s.queue, t.queue, s.clock, s.lease)
    requires t.clock != s.clock ==> t.queue == s.queue
    ensures Lapsed(t, id, n)
  {
    if t.clock == s.clock {
      assert RowMoves(s.queue[id], t.queue[id], s.clock, s.lease);
    }
  }

  lemma {:induction false} AdminMoves(s: Services, step: Step)
    requires AdminOk(s) && OpenOk(s)
    ensures var t := Admin(s, step);
      && s.clock <= t.clock
      && (t.clock == s.clock ==> Moves(s.queue, t.queue, s.clock, s.lease))
      && (t.clock != s.clock ==> t.queue == s.queue)
  {
    hide Writer, DoFailCommit, Cancelled, Valid, Moves, ClaimsOk, WritesOk, MessagesOk, OpenOk;
    SameMoves(s.queue, s.clock, s.lease);
    match step {
      case FailCommit => if s.open.Some? { CommitWrote(s); }
      case ClaimJob(id, worker) =>
        ClaimOpen(s, id, worker);
        if id in s.queue { ClaimMoves(s.queue, s.clock, s.lease, worker, id); }
      case _ => if s.open.None? { WriterWrote(s, step); }
    }
  }

  lemma LapsedSendsNothing(s: Services, step: Step, id: string, n: nat)
    requires Lapsed(s, id, n)
    ensures forall m :: m in Admin(s, step).activations && m !in s.activations ==> m.jobId != id || m.generation > n
  {
    hide Cancelled, Acquire, Renew, Succeed, RetryLater, Interrupt, Recover, Requeue, Enqueue, IsNext;
  }

  // What was ever sent for the job's lapsed attempts.
  ghost predicate AllDead(s: Services, id: string, n: nat, end: int) {
    forall m :: m in s.activations && m.jobId == id && m.generation <= n ==> m.expiresAt <= end
  }

  lemma {:induction false} LapsedForever(s: Services, steps: seq<Step>, id: string, n: nat, end: int)
    requires Inv(s)
    requires Lapsed(s, id, n) && AllDead(s, id, n, end)
    ensures Lapsed(Run(s, steps), id, n) && AllDead(Run(s, steps), id, n, end)
    ensures s.gate.now <= Run(s, steps).gate.now
  {
    hide Admin, GateAfter, Lapsed, Inv, MessagesOk, ClaimsOk, WritesOk, OpenOk;
    if |steps| > 0 {
      var r, step := Run(s, steps[..|steps| - 1]), steps[|steps| - 1];
      LapsedForever(s, steps[..|steps| - 1], id, n, end);
      RunKeeps(s, steps[..|steps| - 1]);
      LapsedStep(r, step, id, n);
    }
  }

  lemma {:induction false} LapsedStep(r: Services, step: Step, id: string, n: nat)
    requires Inv(r) && Lapsed(r, id, n)
    ensures Lapsed(Apply(r, step), id, n)
    ensures forall m :: m in Apply(r, step).activations && m !in r.activations ==> m.jobId != id || m.generation > n
    ensures r.gate.now <= Apply(r, step).gate.now
  {
    hide Admin, GateAfter, MessagesOk, ClaimsOk, WritesOk, OpenOk, GI.Inv;
    AdminMoves(r, step);
    LapsedMoves(r, Admin(r, step), id, n);
    LapsedSendsNothing(r, step, id, n);
    GateKept(r, step);
    assert Lapsed(Admin(r, step).(gate := GateAfter(r, step)), id, n) == Lapsed(Admin(r, step), id, n);
  }

  // When a running job's lease has expired, so that another worker may claim it, every gateway
  // lease of the job is dead: the stored ones, and any still on their way.
  lemma ReclaimIsFenced(s: Services, id: string, quote: string, m: PaymentLease)
    requires Inv(s)
    requires id in s.queue && s.queue[id].status == Running && s.queue[id].expires.value <= s.clock
    ensures var l := s.gate.world.ledger; quote in l.leases && l.leases[quote].jobId == id ==> l.leases[quote].expiresAt <= s.gate.now
    ensures m in s.activations && m.jobId == id ==> L.Activate(s.gate.world.ledger, s.gate.now, m) == L.Failed(L.InvalidLease)
  {
    hide GI.Inv, ClaimsOk, WritesOk, OpenOk, ConfirmedOk;
    var l := s.gate.world.ledger;
    assert RowValid(s.queue[id], s.clock, s.lease);
    if quote in l.leases {
      assert MessageOk(s, MessageOf(quote, l.leases[quote]));
    }
    if m in s.activations {
      assert MessageOk(s, m);
    }
  }

  // Every message names a job, and job names hold no separator.
  lemma KnownJob(s: Services, m: PaymentLease)
    requires Valid(s.queue, s.clock, s.lease) && MessagesOk(s) && m in s.activations
    ensures m.jobId in s.queue && IsJobId(m.jobId)
  {
    assert MessageOk(s, m);
  }

  // From then on, whatever is delivered and in whatever order, no key of this or an earlier attempt
  // ever holds the approval's lease again: nothing is admitted, reserved, signed or cancelled by it.
  lemma {:induction false} OldAttemptsNeverPay(s: Services, steps: seq<Step>, id: string, quote: string, owner: string, n: nat, e: G.Event)
    requires Inv(s)
    requires id in s.queue && s.queue[id].status == Running && s.queue[id].expires.value <= s.clock
    requires n <= s.queue[id].attempts
    ensures var h := Run(s, steps).gate; var key := LeaseKey(id, owner, n);
      && !L.HoldsLease(h.world.ledger, h.now, quote, key)
      && GT.OutOf(h, quote, key, e)
  {
    hide GI.Inv, ClaimsOk, WritesOk, OpenOk, ConfirmedOk, LeaseKey, GT.OutOf, Apply, G.Apply;
    assert AllDead(s, id, n, s.gate.now) by {
      forall m | m in s.activations && m.jobId == id ensures m.expiresAt <= s.gate.now {
        assert MessageOk(s, m) && RowValid(s.queue[id], s.clock, s.lease);
      }
    }
    LapsedForever(s, steps, id, n, s.gate.now);
    RunKeeps(s, steps);
    var t := Run(s, steps);
    var l, key := t.gate.world.ledger, LeaseKey(id, owner, n);
    if quote in l.leases {
      assert MessageOf(quote, l.leases[quote]) in t.activations;
    }
    if L.HoldsLease(l, t.gate.now, quote, key) {
      KnownJob(t, MessageOf(quote, l.leases[quote]));
      LeaseKeyNamesJob(id, owner, n, l.leases[quote].jobId, l.leases[quote].owner, l.leases[quote].generation);
      LeaseKeyInjective(id, l.leases[quote].owner, l.leases[quote].generation, owner, n);
    }
    GT.NothingWithoutLease(t.gate, quote, key, e);
  }

  // -- Fencing in the admin database --

  // No attempt of a job is claimed twice, and the fenced writes of a job commit in claim order.
  lemma ClaimedOnce(s: Services, steps: seq<Step>, i: nat, j: nat)
    requires Inv(s)
    requires i < j < |Run(s, steps).claims|
    ensures var c := Run(s, steps).claims; c[i].id == c[j].id ==> c[i].attempts < c[j].attempts
  {
    RunKeeps(s, steps);
  }

  lemma {:induction false} WritesInOrder(s: Services, steps: seq<Step>, i: nat, j: nat)
    requires Inv(s)
    requires i < j < |Run(s, steps).writes|
    ensures var t := Run(s, steps); var w := t.writes;
      && w[i] in t.claims
      && (w[i].id == w[j].id ==> w[i].attempts <= w[j].attempts)
  {
    RunKeeps(s, steps);
  }

  predicate CallOf(step: Step, c: Claim) {
    match step
    case RenewJob(d) => d == c
    case SendActivation(d) => d == c
    case FencedWrite(d) => d == c
    case SucceedJob(d) => d == c
    case RetryJob(d, _) => d == c
    case FailBegin(d, _, _) => d == c
    case _ => false
  }

  // Once a claim is lapsed, by a later claim or by time, no call its worker makes changes anything.
  // The clock a call reads is that of its one statement here. The code's guards read it before the
  // statement gets the writer lock, so a call that read it before the lapse and then waited can still
  // take effect after a lapse by time; after a later claim it cannot, since the attempts differ.
  lemma {:induction false} LapsedClaimIsInert(s: Services, steps: seq<Step>, c: Claim, call: Step)
    requires Inv(s)
    requires Lapsed(s, c.id, c.attempts)
    requires CallOf(call, c)
    ensures Apply(Run(s, steps), call) == Run(s, steps)
  {
    hide Inv, Run, Renew, Succeed, RetryLater, G.Apply;
    assert Lapsed(Run(s, steps), c.id, c.attempts) by { LapsedStays(s, steps, c.id, c.attempts); }
  }

  lemma {:induction false} LapsedStays(s: Services, steps: seq<Step>, id: string, n: nat)
    requires Inv(s) && Lapsed(s, id, n)
    ensures Lapsed(Run(s, steps), id, n)
  {
    hide Inv, Apply, Lapsed;
    if |steps| > 0 {
      LapsedStays(s, steps[..|steps| - 1], id, n);
      RunKeeps(s, steps[..|steps| - 1]);
      LapsedStep(Run(s, steps[..|steps| - 1]), steps[|steps| - 1], id, n);
    }
  }

  // -- Safe re-quoting --

  // The open failure of a paying job with quote `quote`.
  ghost predicate FailingWith(s: Services, quote: string) {
    && s.open.Some?
    && Pays(s.open.value.claim.kind)
    && s.open.value.claim.id in s.queue
    && QuoteOf(s, s.queue[s.open.value.claim.id]) == Some(quote)
  }

  // The commit leaves the job's catalog approval, or its video, in `approval_required`.
  ghost predicate Requotable(s: Services, quote: string)
    requires FailingWith(s, quote)
  {
    var o, t := s.open.value, DoFailCommit(s, s.open.value);
    || (o.claim.kind.FinalizeCatalog? && s.queue[o.claim.id].paymentQuote == Some(quote) && quote in s.catalog
        && t.catalog[quote] == CatalogApprovalRequired)
    || (o.claim.video.Some? && o.claim.video.value in s.videos
        && t.videos[o.claim.video.value].status == VideoApprovalRequired)
  }

  // A lost, late or negative answer leaves both in `payment_recovery_required`.
  lemma RequotableOnlyIfConfirmed(s: Services, quote: string)
    requires Inv(s) && FailingWith(s, quote)
    ensures Requotable(s, quote) ==> s.open.value.approval && s.open.value.quote == Some(quote) && s.open.value.unpaid
    ensures var o, t := s.open.value, DoFailCommit(s, s.open.value);
      o.approval && !o.unpaid ==>
        && (o.claim.kind.FinalizeCatalog? && s.queue[o.claim.id].paymentQuote == Some(quote) && quote in s.catalog ==>
              t.catalog[quote] == CatalogRecoveryRequired)
        && (o.claim.video.Some? && o.claim.video.value in s.videos ==>
              t.videos[o.claim.video.value].status == VideoRecoveryRequired)
  {
    hide GI.Inv, ClaimsOk, WritesOk, MessagesOk, LeasesOk, ConfirmedOk, Valid, GateAfter;
  }

  // The commit is the step `FailCommit`.
  lemma CommitIsAStep(s: Services)
    requires s.open.Some? && s.open.value.claim.id in s.queue
    ensures Apply(s, FailCommit) == DoFailCommit(s, s.open.value)
  {
    hide CatalogAfter, VideosAfter;
  }

  // A quote the admin service may regenerate has no transaction at the gateway and never will,
  // whatever either service does afterwards, through lost answers, rollbacks and restarts.
  lemma {:induction false} SafeRequote(s: Services, quote: string, steps: seq<Step>)
    requires Inv(s) && FailingWith(s, quote) && Requotable(s, quote)
    ensures var g := Run(DoFailCommit(s, s.open.value), steps).gate;
      Revoked(g, quote) && !L.HasTxFor(g.world.ledger.txs, quote)
  {
    hide GI.Inv, ClaimsOk, WritesOk, MessagesOk, LeasesOk, ConfirmedOk, Valid, Apply, G.Apply, Requotable;
    RequotableOnlyIfConfirmed(s, quote);
    var t := Apply(s, FailCommit);
    CommitIsAStep(s);
    assert Revoked(t.gate, quote) by { RevokedApply(s, FailCommit, quote); }
    StepKeeps(s, FailCommit);
    GateRun(t, steps);
    GT.CancelledForever(t.gate, quote, GateEvents(t, steps));
  }

  lemma {:induction false} RevokedApply(s: Services, step: Step, quote: string)
    requires GI.Inv(s.gate) && Revoked(s.gate, quote)
    ensures Revoked(Apply(s, step).gate, quote)
  {
    hide GI.Inv, GateAfter, Revoked, Admin;
    RevokedForward(s, step, quote);
  }
}
