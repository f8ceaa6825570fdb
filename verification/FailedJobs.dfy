// What a final failure leaves behind, and how a new claim takes the gateway's lease over.
module FailedJobs {
  import opened Outcomes
  import opened Amounts
  import opened Contract
  import opened Jobs
  import opened Services
  import G = Gateway
  import GI = GatewayInvariant
  import GT = GatewayTheorems
  import L = Ledger
  import LI = LedgerInvariant
  import JT = JobTables
  import ST = ServicesTheorems

  // -- Failures --

  // The open failure of a job of this video.
  ghost predicate FailingVideo(s: Services, video: string) {
    && s.open.Some? && s.open.value.claim.id in s.queue
    && s.open.value.claim.video == Some(video) && video in s.videos
  }

  function StatusLeft(s: Services, video: string): VideoStatus
    requires FailingVideo(s, video)
  {
    DoFailCommit(s, s.open.value).videos[video].status
  }

  // A quote with a transaction was never revoked as unpaid.
  lemma PaidIsNotRevoked(g: G.Gateway, quote: string)
    requires GI.Inv(g) && L.HasTxFor(g.world.ledger.txs, quote)
    ensures !ST.Revoked(g, quote)
  {
    hide GI.Inv;
    GT.CancelledUnpaidRow(g, quote);
  }

  // An upload that has paid anything under its video's approved quote never leaves the video in plain
  // error, nor ready for a new quote: whatever the error says and whatever the gateway answers, the
  // video is in recovery.
  lemma {:induction false} PaidUploadRecovers(s: Services, video: string, quote: string)
    requires ST.Inv(s) && FailingVideo(s, video)
    requires s.open.value.claim.kind.UploadVideo?
    requires s.videos[video].approvedQuote == Some(quote) && L.HasTxFor(s.gate.world.ledger.txs, quote)
    requires s.queue[s.open.value.claim.id].paymentQuote in {None, Some(quote)}
    ensures StatusLeft(s, video) == VideoRecoveryRequired
  {
    hide GI.Inv, ST.WritesOk, ST.MessagesOk, ST.LeasesOk, ST.ConfirmedOk, Valid, ST.Revoked;
    PaidIsNotRevoked(s.gate, quote);
  }

  // Which failures leave which state: recovery, unless the error asks for approval and nothing can
  // have been paid, or carries no mark and no approved upload stands behind it.
  lemma {:induction false} FailedVideoStates(s: Services, video: string)
    requires ST.Inv(s) && FailingVideo(s, video)
    ensures var o, approved := s.open.value, s.videos[video].approvedQuote.Some?;
      && (StatusLeft(s, video) == Error <==> !o.approval && !o.recovery && !(o.claim.kind.UploadVideo? && approved))
      && (StatusLeft(s, video) == VideoApprovalRequired <==>
            o.approval && (if o.quote.Some? then o.unpaid && ST.Revoked(s.gate, o.quote.value) else !o.recovery))
      && StatusLeft(s, video) in {Error, VideoApprovalRequired, VideoRecoveryRequired}
    ensures forall v :: v in s.videos && v != video ==> DoFailCommit(s, s.open.value).videos[v] == s.videos[v]
  {
    hide GI.Inv, ST.ClaimsOk, ST.WritesOk, ST.MessagesOk, ST.LeasesOk, ST.ConfirmedOk, Valid, ST.Revoked, QuoteOf;
  }

  // A retry that asks for a new approval may follow an attempt that has paid: unless the gateway
  // confirms that it has not, video and catalog go to recovery.
  lemma {:induction false} UnconfirmedRetryRecovers(s: Services, c: Claim, recovery: bool)
    requires Fenced(s, c) && Pays(c.kind) && c.attempts > 1
    ensures var o := DoFailBegin(s, c, true, recovery).open.value; var t := DoFailCommit(DoFailBegin(s, c, true, recovery), o);
      && (c.video.Some? && c.video.value in s.videos ==> t.videos[c.video.value].status == VideoRecoveryRequired)
      && (c.kind.FinalizeCatalog? && s.queue[c.id].paymentQuote.Some? && s.queue[c.id].paymentQuote.value in s.catalog ==>
            t.catalog[s.queue[c.id].paymentQuote.value] == CatalogRecoveryRequired)
  {
    hide QuoteOf;
  }

  // The worker's own lease stands at the gateway and nothing was reserved under the quote.
  ghost predicate Unpaid(g: G.Gateway, quote: string, key: string) {
    && L.HoldsLease(g.world.ledger, g.now, quote, key) && !g.world.ledger.guard
    && quote in g.world.ledger.approvals && !L.HasTxFor(g.world.ledger.txs, quote)
  }

  // The gateway confirms a cancellation exactly then, and revokes the quote.
  lemma {:induction false} UnpaidIsConfirmed(g: G.Gateway, m: CancelMessage)
    requires GI.Inv(g)
    ensures Cancelled(g, m).Done? && Cancelled(g, m).value <==> Unpaid(g, m.quote, m.key)
    ensures Unpaid(g, m.quote, m.key) ==> ST.Revoked(G.Apply(g, G.CancelRequest(m.quote, m.key)), m.quote)
  {
    hide GI.Inv, L.HoldsLease, L.HasTxFor;
  }

  // A failure that asks for a new approval, of a worker whose lease stands and that has paid nothing,
  // leaves its video and its catalog free to be quoted again, provided the answer comes in time.
  lemma {:induction false} UnpaidFailureMayBeQuotedAgain(s: Services, c: Claim, recovery: bool, m: CancelMessage)
    requires ST.Inv(s) && s.open.None? && Fenced(s, c) && Pays(c.kind)
    requires QuoteOf(s, s.queue[c.id]) == Some(m.quote) && m.key == KeyOf(c) && Unpaid(s.gate, m.quote, m.key)
    ensures var t := Apply(Apply(Apply(Apply(s, FailBegin(c, true, recovery)), DeliverCancel(m)), FailReply), FailCommit);
      && (c.video.Some? && c.video.value in s.videos ==> c.video.value in t.videos && t.videos[c.video.value].status == VideoApprovalRequired)
      && (c.kind.FinalizeCatalog? && s.queue[c.id].paymentQuote.Some? && s.queue[c.id].paymentQuote.value in s.catalog ==>
            s.queue[c.id].paymentQuote.value in t.catalog && t.catalog[s.queue[c.id].paymentQuote.value] == CatalogApprovalRequired)
  {
    hide ST.Inv, Apply, Unpaid, KeyOf, QuoteOf;
    assert GI.Inv(s.gate) by { GateOk(s); }
    UnpaidIsConfirmed(s.gate, m);
    JT.ConfirmedFailureIsARun(s, c, recovery, m);
  }

  lemma GateOk(s: Services)
    requires ST.Inv(s)
    ensures GI.Inv(s.gate)
  {
    hide GI.Inv;
  }

  // -- Taking a lease over --

  ghost predicate ClaimedBy(s: Services, m: PaymentLease) {
    exists c :: c in s.claims && c.id == m.jobId && c.owner == m.owner && c.attempts == m.generation
  }

  // Every activation is that of a claim.
  ghost predicate ActivationsClaimed(s: Services) {
    forall m :: m in s.activations ==> ClaimedBy(s, m)
  }

  lemma ActivationWriters(s: Services, step: Step)
    ensures var t := Apply(s, step);
      && (forall c :: c in s.claims ==> c in t.claims)
      && (forall m :: m in t.activations ==>
            m in s.activations
            || (step.SendActivation? && Fenced(s, step.claim) && m.jobId == step.claim.id && m.owner == step.claim.owner && m.generation == step.claim.attempts))
  {
    hide Cancelled, GateAfter, Acquire, Renew, Succeed, RetryLater, Interrupt, Recover, Requeue, Enqueue, IsNext, Owns, QuoteOf;
  }

  lemma {:induction false} RunClaimed(s: Services, steps: seq<Step>)
    requires ActivationsClaimed(s)
    ensures ActivationsClaimed(Run(s, steps))
  {
    hide Apply, Fenced;
    if |steps| > 0 {
      var r, t, last := Run(s, steps[..|steps| - 1]), Run(s, steps), steps[|steps| - 1];
      RunClaimed(s, steps[..|steps| - 1]);
      ActivationWriters(r, last);
      forall m | m in t.activations ensures ClaimedBy(t, m) {
        if m in r.activations {
          var c :| c in r.claims && c.id == m.jobId && c.owner == m.owner && c.attempts == m.generation;
          assert c in t.claims;
        } else {
          assert last.claim in t.claims by { FencedClaim(r, last.claim); }
        }
      }
    }
  }

  lemma FencedClaim(s: Services, c: Claim)
    ensures Fenced(s, c) ==> c in s.claims
  {
  }

  // The lease the gateway holds for a quote, when it is the current claim's own job's, is of that
  // claim or an earlier one.
  lemma {:induction false} HeldByClaim(s: Services, c: Claim, quote: string)
    requires ST.Inv(s) && ActivationsClaimed(s) && Fenced(s, c)
    requires quote in s.gate.world.ledger.leases && s.gate.world.ledger.leases[quote].jobId == c.id
    ensures var row := s.gate.world.ledger.leases[quote];
      row.generation <= c.attempts && (row.generation == c.attempts ==> row.owner == c.owner)
  {
    hide GI.Inv, ST.WritesOk, ST.ConfirmedOk, ST.OpenOk, Valid;
    var row := s.gate.world.ledger.leases[quote];
    var m := ST.MessageOf(quote, row);
    assert m in s.activations && ST.MessageOk(s, m) && ClaimedBy(s, m);
    var d :| d in s.claims && d.id == m.jobId && d.owner == m.owner && d.attempts == m.generation;
    if d.attempts == c.attempts {
      SameAttempt(s, c, d);
    }
  }

  lemma SameAttempt(s: Services, c: Claim, d: Claim)
    requires ST.ClaimsOk(s) && c in s.claims && d in s.claims && c.id == d.id && c.attempts == d.attempts
    ensures c == d
  {
    var i :| 0 <= i < |s.claims| && s.claims[i] == c;
    var j :| 0 <= j < |s.claims| && s.claims[j] == d;
    assert !(i < j) && !(j < i);
  }

  // The current claim of a job always takes the gateway's lease over from every earlier one, dead or
  // alive, as long as it has a second left, and keeps it by renewing: the one activation refused is the
  // renewal of a lease that has run out at the gateway.
  lemma {:induction false} CurrentClaimTakesOver(s: Services, c: Claim, quote: string)
    requires ST.Inv(s) && ActivationsClaimed(s)
    requires Fenced(s, c) && Pays(c.kind) && s.queue[c.id].kind == c.kind && QuoteOf(s, s.queue[c.id]) == Some(quote)
    requires quote in s.gate.world.ledger.approvals
    requires quote in s.gate.world.ledger.leases ==> s.gate.world.ledger.leases[quote].jobId == c.id
    requires c.id != "" && c.owner != "" && s.lease <= 3600 * TICKS && s.gate.now < Seconds(s.queue[c.id].expires.value)
    ensures var t := Apply(Apply(s, SendActivation(c)), DeliverActivation(ActivationOf(s, c)));
      var leases := s.gate.world.ledger.leases;
      L.HoldsLease(t.gate.world.ledger, t.gate.now, quote, KeyOf(c)) <==>
        !(quote in leases && leases[quote].generation == c.attempts && leases[quote].expiresAt <= s.gate.now)
  {
    hide GI.Inv, ST.WritesOk, ST.MessagesOk, ST.LeasesOk, ST.ConfirmedOk, ST.OpenOk, ST.ClaimsOk, LeaseKey, QuoteOf, L.Activate, ActivationsClaimed;
    var m := ActivationOf(s, c);
    var t := Apply(s, SendActivation(c));
    Sends(s, c);
    Delivers(t, m);
    assert RowValid(s.queue[c.id], s.clock, s.lease);
    WithinAnHour(s.clock, s.lease, s.queue[c.id].expires.value);
    if quote in s.gate.world.ledger.leases {
      HeldByClaim(s, c, quote);
    }
    hide ST.Inv;
    Activates(s.gate.world.ledger, s.gate.now, m, c);
  }

  lemma Sends(s: Services, c: Claim)
    requires Fenced(s, c) && Pays(s.queue[c.id].kind) && QuoteOf(s, s.queue[c.id]).Some?
    ensures Apply(s, SendActivation(c)) == s.(activations := s.activations + {ActivationOf(s, c)})
  {
    hide QuoteOf;
  }

  lemma Delivers(s: Services, m: PaymentLease)
    requires m in s.activations
    ensures var t := Apply(s, DeliverActivation(m));
      t.gate.now == s.gate.now && t.gate.world.ledger == L.Activate(s.gate.world.ledger, s.gate.now, m).Tables(s.gate.world.ledger)
  {
    hide L.Activate;
  }

  lemma WithinAnHour(clock: int, lease: nat, expires: int)
    requires expires <= clock + lease && lease <= 3600 * TICKS
    ensures Seconds(expires) <= Seconds(clock) + 3600
  {
  }

  lemma Activates(l: L.Ledger, now: int, m: PaymentLease, c: Claim)
    requires m.jobId == c.id && m.owner == c.owner && m.generation == c.attempts && c.attempts > 0
    requires c.id != "" && c.owner != "" && now < m.expiresAt <= now + 3600 && m.quoteId in l.approvals
    requires m.quoteId in l.leases ==>
      var row := l.leases[m.quoteId];
      row.jobId == c.id && row.generation <= c.attempts && (row.generation == c.attempts ==> row.owner == c.owner)
    ensures L.HoldsLease(L.Activate(l, now, m).Tables(l), now, m.quoteId, KeyOf(c)) <==>
      !(m.quoteId in l.leases && l.leases[m.quoteId].generation == c.attempts && l.leases[m.quoteId].expiresAt <= now)
  {
    hide LeaseKey;
    if m.quoteId in l.leases {
      OtherKey(c, l.leases[m.quoteId]);
    }
  }

  lemma OtherKey(c: Claim, row: L.LeaseRow)
    requires row.jobId == c.id
    ensures row.Key() == KeyOf(c) ==> row.generation == c.attempts
  {
    if row.Key() == KeyOf(c) {
      LeaseKeyInjective(c.id, row.owner, row.generation, c.owner, c.attempts);
    }
  }
}
