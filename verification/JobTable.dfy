// The lease worker's statements over the admin database, proved against the queue's functions and
// against the steps of the cross-service machine. `now` is the clock read at the statement.
module JobTables {
  import opened Outcomes
  import opened Contract
  import opened Jobs
  import opened Services
  import ST = ServicesTheorems

  const RETRY_SECONDS := 30
  const RETRY_CAP := 900

  function Doubled(n: nat): nat {
    if n == 0 then 1 else 2 * Doubled(n - 1)
  }

  function RetryDelay(attempts: nat): int {
    var exponent := if attempts == 0 then 0 else if attempts - 1 < 5 then attempts - 1 else 5;
    var delay := RETRY_SECONDS * Doubled(exponent);
    (if delay < RETRY_CAP then delay else RETRY_CAP) * TICKS
  }

  // Half a minute after the first attempt, doubling up to a quarter of an hour.
  lemma RetryDelayDoubles(attempts: nat)
    ensures RetryDelay(0) == RetryDelay(1) == 30 * TICKS
    ensures attempts > 0 ==> RetryDelay(attempts + 1) == if RetryDelay(attempts) > 450 * TICKS then 900 * TICKS else 2 * RetryDelay(attempts)
    ensures 30 * TICKS <= RetryDelay(attempts) <= 900 * TICKS
  {
    assert Doubled(0) == 1 && Doubled(1) == 2 && Doubled(2) == 4 && Doubled(3) == 8 && Doubled(4) == 16 && Doubled(5) == 32;
  }

  // A failure with its transaction, from the check of ownership to the commit.
  function FailedWith(s: Services, c: Claim, approval: bool, recovery: bool, unpaid: bool): Services
    requires c.id in s.queue
  {
    var begun := DoFailBegin(s, c, approval, recovery);
    DoFailCommit(begun, begun.open.value.(unpaid := unpaid && begun.open.value.quote.Some?))
  }

  // Queued and its time has come, or running and its lease is over.
  predicate Due(row: JobRow, now: int) {
    if row.status == Queued then row.runAfter <= now
    else row.status == Running && row.expires.Some? && row.expires.value <= now
  }

  // A failure ends the job on its last attempt or with a marked error, and otherwise has it wait.
  predicate Reported(row: JobRow, now: int, c: Claim, marked: bool) {
    if c.attempts >= c.maxAttempts || marked then row.status == Failed
    else row.status == Queued && row.attempts == c.attempts && now + 30 * TICKS <= row.runAfter <= now + 900 * TICKS
  }

  // Released to whoever claims it first, from now on.
  predicate Waiting(row: JobRow, now: int) {
    row.status == Queued && row.owner.None? && row.expires.None? && row.runAfter == now
  }

  // Only a running job without a live lease is released.
  predicate Recovered(before: JobRow, after: JobRow, now: int) {
    if before.status == Running && !(before.expires.Some? && before.expires.value > now) then Waiting(after, now) else after == before
  }

  class JobTable {
    var jobs: Queue
    var videos: map<string, VideoRow>
    var catalog: map<string, CatalogState>

    constructor ()
      ensures jobs == map[] && videos == map[] && catalog == map[]
    {
      jobs, videos, catalog := map[], map[], map[];
    }

    // The admin database of a state of both services.
    ghost predicate Shows(s: Services)
      reads this
    {
      jobs == s.queue && videos == s.videos && catalog == s.catalog
    }

    // One statement picks the job that has waited longest and claims it.
    method AcquireNextJob(now: int, lease: nat, worker: string) returns (claim: Option<Claim>)
      modifies this`jobs
      ensures claim.None? <==> forall id :: id in old(jobs) ==> !Claimable(old(jobs)[id], now)
      ensures claim.None? ==> jobs == old(jobs)
      ensures claim.Some? ==>
        && IsNext(old(jobs), now, claim.value.id)
        && Due(old(jobs)[claim.value.id], now)
        && (forall id :: id in old(jobs) && Due(old(jobs)[id], now) ==>
              var first, other := old(jobs)[claim.value.id], old(jobs)[id];
              first.runAfter < other.runAfter || (first.runAfter == other.runAfter && first.createdAt <= other.createdAt))
        && jobs == Acquire(old(jobs), now, lease, worker, claim.value.id)
        && claim.value == ClaimOf(jobs, worker, claim.value.id)
        && Owns(jobs, now, claim.value) == (lease > 0)
    {
      var ids := set id | id in jobs && Claimable(jobs[id], now);
      if ids == {} {
        claim := None;
        assert forall id :: id in jobs && Claimable(jobs[id], now) ==> id in ids;
      } else {
        ghost var least := NextExists(jobs, now, ids);
        assert IsNext(jobs, now, least);
        var id :| id in jobs && IsNext(jobs, now, id);
        jobs := jobs[id := jobs[id].(
                  status := Running, attempts := jobs[id].attempts + 1, owner := Some(worker), expires := Some(now + lease))];
        claim := Some(Claim(id, jobs[id].kind, jobs[id].video, worker, jobs[id].attempts, jobs[id].maxAttempts));
      }
    }

    // Whether the job row names this claim, still unexpired.
    predicate Held(now: int, c: Claim)
      reads this`jobs
      ensures Held(now, c) == Owns(jobs, now, c)
    {
      c.id in jobs &&
        var row := jobs[c.id];
        row.status == Running && row.owner == Some(c.owner) && row.attempts == c.attempts && row.expires.Some? && row.expires.value > now
    }

    method RenewLease(now: int, lease: nat, c: Claim) returns (renewed: bool)
      modifies this`jobs
      ensures jobs == Renew(old(jobs), now, lease, c)
      ensures renewed == Owns(old(jobs), now, c)
      ensures renewed ==> jobs == old(jobs)[c.id := old(jobs)[c.id].(expires := Some(now + lease))]
      ensures !renewed ==> jobs == old(jobs)
    {
      renewed := Held(now, c);
      if renewed {
        jobs := jobs[c.id := jobs[c.id].(expires := Some(now + lease))];
      }
    }

    // The message an owner sends to the gateway: at most its own lease, in whole seconds.
    method UpdatePaymentLease(now: int, c: Claim, ghost s: Services) returns (message: Result<Option<PaymentLease>, ()>)
      requires Shows(s) && s.clock == now && c in s.claims
      requires c.id in jobs ==> jobs[c.id].kind == c.kind
      ensures message.Err? <==> Pays(c.kind) && !Owns(jobs, now, c)
      ensures message.Ok? && message.value.Some? ==> DoActivate(s, c) == s.(activations := s.activations + {message.value.value})
      ensures message.Ok? && message.value.None? ==> DoActivate(s, c) == s
    {
      if !Pays(c.kind) {
        return Ok(None);
      }
      if !Held(now, c) {
        return Err(());
      }
      var row := jobs[c.id];
      var quote := row.paymentQuote;
      if quote.None? && row.video.Some? && row.video.value in videos {
        quote := videos[row.video.value].approvedQuote;
      }
      if quote.None? {
        return Ok(None);
      }
      message := Ok(Some(PaymentLease(quote.value, c.id, c.owner, c.attempts, Seconds(row.expires.value))));
    }

    // Also answers with the directory of local files to remove.
    method MarkSucceeded(now: int, c: Claim, ghost s: Services) returns (cleanup: Option<string>)
      requires Shows(s) && s.clock == now && c in s.claims
      modifies this`jobs, this`videos
      ensures Shows(DoSucceed(s, c))
      ensures Owns(s.queue, now, c) ==> jobs[c.id].status == Succeeded && jobs[c.id].owner.None?
      ensures !Owns(s.queue, now, c) ==> jobs == s.queue && videos == s.videos
      ensures forall v :: v in s.videos && s.videos[v].status != Ready ==> v in videos && videos[v] == s.videos[v]
      ensures cleanup.Some? ==>
        && Owns(s.queue, now, c) && c.kind.UploadVideo? && c.video.Some? && c.video.value in s.videos
        && s.videos[c.video.value].status == Ready && cleanup == s.videos[c.video.value].jobDir
    {
      cleanup := None;
      if Held(now, c) {
        jobs := jobs[c.id := jobs[c.id].(status := Succeeded, owner := None, expires := None)];
        if c.kind.UploadVideo? && c.video.Some? && c.video.value in videos && videos[c.video.value].status == Ready {
          cleanup := videos[c.video.value].jobDir;
          videos := videos[c.video.value := videos[c.video.value].(jobDir := None, sourcePath := None)];
        }
      }
    }

    method MarkInterrupted(now: int, id: string, worker: string)
      modifies this`jobs
      ensures jobs == Interrupt(old(jobs), now, id, worker)
      ensures forall other :: other in old(jobs) && (other != id || old(jobs)[other].owner != Some(worker)) ==>
        other in jobs && jobs[other] == old(jobs)[other]
      ensures id in old(jobs) && old(jobs)[id].status == Running && old(jobs)[id].owner == Some(worker) ==> Waiting(jobs[id], now)
    {
      if id in jobs && jobs[id].status == Running && jobs[id].owner == Some(worker) {
        jobs := jobs[id := jobs[id].(status := Queued, owner := None, expires := None, runAfter := now)];
      }
    }

    // Requeues every running row whose lease is missing or over.
    method RecoverInterrupted(now: int) returns (reset: nat)
      modifies this`jobs
      ensures jobs == Recover(old(jobs), now)
      ensures forall id :: id in old(jobs) ==> id in jobs && Recovered(old(jobs)[id], jobs[id], now)
      ensures reset == |set id | id in old(jobs) && jobs[id] != old(jobs)[id]|
    {
      var stale := set id | id in jobs && jobs[id].status == Running && (jobs[id].expires.None? || jobs[id].expires.value <= now);
      var before := jobs;
      jobs := map id | id in before ::
        if id in stale then before[id].(status := Queued, owner := None, expires := None, runAfter := now) else before[id];
      reset := |stale|;
      assert stale == set id | id in before && jobs[id] != before[id];
    }

    // What a final failure leaves in the catalog approval and the video of its job.
    method RecordFailure(c: Claim, approval: bool, recovering: bool, ghost s: Services, ghost o: OpenFailure)
      requires c.id in jobs && c.id in s.queue && jobs[c.id].paymentQuote == s.queue[c.id].paymentQuote
      requires videos == s.videos && catalog == s.catalog
      requires o.claim == c && o.approval == approval && recovering == RecoveryAfter(o)
      modifies this`videos, this`catalog
      ensures catalog == CatalogAfter(s, o, s.queue[c.id]) && videos == VideosAfter(s, o)
    {
      hide RecoveryAfter;
      var quote := jobs[c.id].paymentQuote;
      if c.kind.FinalizeCatalog? && quote.Some? && quote.value in catalog {
        catalog := catalog[quote.value := if approval && !recovering then CatalogApprovalRequired else CatalogRecoveryRequired];
      }
      if c.video.Some? && c.video.value in videos {
        var row := videos[c.video.value];
        var status := if recovering || (row.approvedQuote.Some? && !approval && c.kind.UploadVideo?) then VideoRecoveryRequired
                      else if approval then VideoApprovalRequired
                      else VideoStatus.Error;
        videos := videos[c.video.value := row.(status := status)];
      }
    }

    // `answer` is the gateway's reply to the cancellation, None when it was lost or late. The error
    // text is given by the marks found in it.
    method MarkFailed(now: int, c: Claim, approval: bool, recovery: bool, answer: Option<bool>, ghost s: Services)
      requires Shows(s) && s.clock == now
      modifies this
      ensures Final(c, approval, recovery) && Owns(s.queue, now, c) ==>
        Shows(FailedWith(s, c, approval, recovery, answer == Some(true)))
      ensures Final(c, approval, recovery) && !Owns(s.queue, now, c) ==> Shows(s)
      ensures Owns(s.queue, now, c) ==> c.id in jobs && Reported(jobs[c.id], now, c, approval || recovery)
      ensures !Final(c, approval, recovery) ==>
        jobs == RetryLater(s.queue, now, c, RetryDelay(c.attempts)) && videos == s.videos && catalog == s.catalog
    {
      RetryDelayDoubles(c.attempts);
      hide CatalogAfter, VideosAfter, RetryDelay;
      var recovering := recovery || (approval && c.attempts > 1 && Pays(c.kind));
      if c.attempts >= c.maxAttempts || recovering || approval {
        if Held(now, c) {
          jobs := jobs[c.id := jobs[c.id].(status := Failed, owner := None, expires := None)];
          if approval && Pays(c.kind) {
            var quote := jobs[c.id].paymentQuote;
            if quote.None? && jobs[c.id].video.Some? && jobs[c.id].video.value in videos {
              quote := videos[jobs[c.id].video.value].approvedQuote;
            }
            if quote.Some? {
              recovering := answer != Some(true);
            }
          }
          RecordFailure(c, approval, recovering, DoFailBegin(s, c, approval, recovery), OpenFailure(
            c, approval, Recovering(c, approval, recovery), DoFailBegin(s, c, approval, recovery).open.value.quote,
            answer == Some(true) && DoFailBegin(s, c, approval, recovery).open.value.quote.Some?));
        }
      } else if Held(now, c) {
        jobs := jobs[c.id := jobs[c.id].(status := Queued, owner := None, expires := None, runAfter := now + RetryDelay(c.attempts))];
      }
    }
  }

  // The same failure as steps of both services: with the gateway's answer lost, and with its
  // confirmation delivered and answered in time.
  lemma UnansweredFailureIsARun(s: Services, c: Claim, approval: bool, recovery: bool)
    requires s.open.None? && Fenced(s, c) && Final(c, approval, recovery)
    ensures SameDatabase(
      FailedWith(s, c, approval, recovery, false),
      Apply(Apply(s, FailBegin(c, approval, recovery)), FailCommit))
  {
    hide Cancelled, KeyOf, CatalogAfter, VideosAfter, GateAfter, Owns, QuoteOf;
    Begins(s, c, approval, recovery);
    ST.CommitIsAStep(Apply(s, FailBegin(c, approval, recovery)));
  }

  lemma {:induction false} ConfirmedFailureIsARun(s: Services, c: Claim, recovery: bool, m: CancelMessage)
    requires s.open.None? && Fenced(s, c) && Final(c, true, recovery)
    requires Pays(c.kind) && QuoteOf(s, s.queue[c.id]) == Some(m.quote) && m.key == KeyOf(c)
    requires Cancelled(s.gate, m).Done? && Cancelled(s.gate, m).value
    ensures SameDatabase(
      FailedWith(s, c, true, recovery, true),
      Apply(Apply(Apply(Apply(s, FailBegin(c, true, recovery)), DeliverCancel(m)), FailReply), FailCommit))
  {
    hide Cancelled, KeyOf, CatalogAfter, VideosAfter, GateAfter, Owns, QuoteOf, Admin;
    Begins(s, c, true, recovery);
    var begun := Apply(s, FailBegin(c, true, recovery));
    Confirms(begun, m);
    var confirmed := Apply(begun, DeliverCancel(m));
    Replies(confirmed);
    var replied := Apply(confirmed, FailReply);
    ST.CommitIsAStep(replied);
    CommitSame(begun, replied, replied.open.value);
  }

  lemma CommitSame(s: Services, t: Services, o: OpenFailure)
    requires SameDatabase(s, t) && o.claim.id in s.queue
    ensures SameDatabase(DoFailCommit(s, o), DoFailCommit(t, o))
  {
  }

  lemma Begins(s: Services, c: Claim, approval: bool, recovery: bool)
    requires s.open.None? && Fenced(s, c) && Final(c, approval, recovery)
    ensures c.id in s.queue && Apply(s, FailBegin(c, approval, recovery)) == DoFailBegin(s, c, approval, recovery)
  {
    hide QuoteOf;
  }

  lemma Confirms(s: Services, m: CancelMessage)
    requires m in s.cancels && Cancelled(s.gate, m).Done? && Cancelled(s.gate, m).value
    ensures var t := Apply(s, DeliverCancel(m)); t == s.(confirmed := s.confirmed + {m}, gate := t.gate)
  {
    hide Cancelled, GateAfter;
  }

  lemma Replies(s: Services)
    requires s.open.Some? && s.open.value.quote.Some?
    requires CancelMessage(s.open.value.quote.value, KeyOf(s.open.value.claim)) in s.confirmed
    ensures Apply(s, FailReply) == s.(open := Some(s.open.value.(unpaid := true)))
  {
    hide KeyOf;
  }

  ghost predicate SameDatabase(s: Services, t: Services) {
    s.queue == t.queue && s.videos == t.videos && s.catalog == t.catalog && s.writes == t.writes
  }
}
