// The catalog payment functions over the admin database, proved against the publication steps.
module CatalogTables {
  import opened Outcomes
  import opened Amounts
  import opened Jobs
  import opened Services
  import opened Catalog
  import CT = CatalogTheorems
  import ST = ServicesTheorems

  class CatalogTable {
    var approvals: map<string, CatalogState>
    var plans: map<string, Plan>
    var jobs: Queue
    var revision: int
    var snapshot: Option<Snapshot>
    var file: Option<Snapshot>

    constructor (first: int)
      ensures approvals == map[] && plans == map[] && jobs == map[] && revision == first && snapshot.None? && file.None?
    {
      approvals, plans, jobs, revision, snapshot, file := map[], map[], map[], first, None, None;
    }

    // The admin database's catalog tables in a state of the publication machine, with nothing else
    // holding the writer lock.
    ghost predicate Shows(c: Catalog)
      reads this
    {
      approvals == c.base.catalog && plans == c.plans && jobs == c.base.queue && revision == c.revision
      && snapshot == c.snapshot && file == c.file && c.base.open.None?
    }

    // EXISTS(... state IN ('approved','uploading','payment_recovery_required'))
    method RequireReconciled() returns (clear: bool)
      ensures clear == Reconciled(approvals)
    {
      clear := forall q :: q in approvals ==> !Unreconciled(approvals[q]);
    }

    method Prepare(author: Option<Claim>, owned: bool, plan: Plan, ghost c: Catalog) returns (prepared: bool)
      requires Shows(c)
      requires author.Some? ==> owned == Fenced(c.base, author.value)
      modifies this
      ensures prepared == CanPrepare(c, author, plan)
      ensures Shows(Moved(c, CatalogStep.Prepare(author, plan)))
    {
      CT.PrepareIs(c, author, plan);
      hide Fenced, Moved, Reconciled;
      var clear := RequireReconciled();
      if (author.Some? && !owned) || plan.revision != revision || !clear || plan.quote in approvals {
        return false;
      }
      approvals := map q | q in approvals :: if approvals[q] == Draft then Replaced else approvals[q];
      approvals := approvals[plan.quote := Draft];
      plans := plans[plan.quote := plan];
      prepared := true;
    }

    // `job` is a fresh UUID.
    method Approve(quote: string, maxStorageAtto: string, maxGasWei: string, accepted: bool, job: string, max: nat, now: int,
                   ghost c: Catalog) returns (approved: bool)
      requires Shows(c) && c.base.clock == now && IsJobId(job)
      requires quote in approvals ==> quote in plans
      modifies this
      ensures approved == CanApprove(c, quote, maxStorageAtto, maxGasWei, accepted, job)
      ensures Shows(Moved(c, ApproveQuote(quote, maxStorageAtto, maxGasWei, accepted, job, max)))
    {
      CT.CatalogWriters(c.base, WriteCatalog(c.base.catalog[quote := Approved]));
      ghost var written := Apply(c.base, WriteCatalog(c.base.catalog[quote := Approved]));
      if job !in jobs && !Conflicts(jobs, FinalizeCatalog, None) {
        CT.Enqueued(written, job, max, quote);
      }
      hide Apply;
      if quote !in approvals || approvals[quote] != Draft {
        return false;
      }
      var plan := plans[quote];
      if maxStorageAtto != plan.maxStorageAtto || maxGasWei != plan.maxGasWei || plan.revision != revision || !accepted {
        return false;
      }
      if job in jobs || (exists id :: id in jobs && jobs[id].status in {Queued, Running} && jobs[id].kind == FinalizeCatalog) {
        return false;
      }
      approvals := approvals[quote := Approved];
      jobs := jobs[job := JobRow(FinalizeCatalog, None, Queued, 0, max, None, None, now, now, Some(quote))];
      approved := true;
    }

    // One fenced write of `finalize`: to 'uploading' before the first payment, to 'complete' after
    // the last.
    method Finalize(claim: Claim, owned: bool, done: bool, ghost c: Catalog) returns (written: bool)
      requires Shows(c)
      requires owned == Fenced(c.base, claim)
      requires HasPlan(c, claim) && At(c, claim, if done then Started else Cleared)
      modifies this
      ensures written == if done then CanComplete(c, claim) else CanStart(c, claim)
      ensures Shows(Moved(c, if done then CompleteUpload(claim) else StartUpload(claim)))
    {
      var quote := jobs[claim.id].paymentQuote.value;
      CT.CatalogWriters(c.base, WriteCatalog(c.base.catalog[quote := if done then Complete else InUpload]));
      hide Apply, Fenced;
      if !owned || (done && plans[quote].revision != revision) {
        return false;
      }
      approvals := approvals[quote := if done then Complete else InUpload];
      if done {
        snapshot := Some(Paid(quote, plans[quote].revision, None));
      }
      written := true;
    }

    // `refresh_local_catalog_from_db`: the documents as they are, and the addresses of the row it
    // replaces, not of a file that may lag behind it.
    method RefreshSnapshot(ghost c: Catalog)
      requires Shows(c)
      modifies this`snapshot
      ensures Shows(Moved(c, Refresh))
      ensures snapshot.Some? && snapshot.value.pending && snapshot.value.revision == revision
      ensures old(snapshot).Some? ==> snapshot.value.addresses == old(snapshot).value.addresses
    {
      var addresses := if snapshot.Some? then snapshot.value.addresses else Inherited;
      snapshot := Some(Snapshot(revision, None, addresses, true));
    }

    // Materializes the row as it is now, under the writer lock.
    method RestoreSnapshot(ghost c: Catalog)
      requires Shows(c)
      modifies this`file
      ensures Shows(Moved(c, RestoreFile))
    {
      if snapshot.Some? {
        file := snapshot;
      }
    }

    // ORDER BY created_at DESC LIMIT 1: the paused approval, then its own failed job.
    method Resume(now: int, ghost c: Catalog) returns (resumed: Option<string>)
      requires Shows(c) && CT.Inv(c) && c.base.clock == now
      modifies this
      ensures resumed.None? ==> Shows(c) && forall q :: !CanResume(c, q)
      ensures resumed.Some? ==> CanResume(c, resumed.value) && Shows(Moved(c, CatalogStep.Resume(resumed.value)))
      ensures resumed.Some? ==> Newest(c, resumed.value)
    {
      hide CT.ProgressesOk, ST.Inv, CT.PublishedOk, Apply, CT.JobsOk, CT.StatesOk, Newest;
      var paused := set q | q in approvals && approvals[q] == CatalogRecoveryRequired;
      forall q | q in paused ensures q in plans { PausedOk(c, q); }
      if paused == {} {
        assert forall q :: q in approvals && approvals[q] == CatalogRecoveryRequired ==> q in paused;
        return None;
      }
      ghost var last := LatestExists(plans, paused);
      var quote :| quote in paused && forall r :: r in paused ==> plans[r].created <= plans[quote].created;
      assert IsLatestPaused(c, quote) by {
        forall q | q in c.base.catalog && q in c.plans && c.base.catalog[q] == CatalogRecoveryRequired
          ensures c.plans[q].created <= c.plans[quote].created { assert q in paused; }
      }
      NewestOk(c, quote);
      PausedOk(c, quote);
      if exists id :: id in jobs && jobs[id].status in {Queued, Running} && jobs[id].kind == FinalizeCatalog {
        return None;
      }
      assert c.jobOf[quote] in jobs;
      var job :| job in jobs && jobs[job].kind == FinalizeCatalog && jobs[job].paymentQuote == Some(quote) && jobs[job].status == Failed;
      assert job == c.jobOf[quote] by { OnlyJob(c, job); }
      ResumeEffect(c, quote);
      hide Moved, CanResume;
      var row := jobs[job];
      var max := if row.maxAttempts < row.attempts + 1 then row.attempts + 1 else row.maxAttempts;
      jobs := jobs[job := row.(status := Queued, runAfter := now, owner := None, expires := None, maxAttempts := max)];
      approvals := approvals[quote := Approved];
      resumed := Some(quote);
    }
  }

  // No paused approval was drafted later.
  ghost predicate Newest(c: Catalog, quote: string) {
    quote in c.plans && forall q :: q in c.base.catalog && q in c.plans && c.base.catalog[q] == CatalogRecoveryRequired ==>
      c.plans[q].created <= c.plans[quote].created
  }

  lemma NewestOk(c: Catalog, quote: string)
    requires IsLatestPaused(c, quote)
    ensures Newest(c, quote)
  {
  }

  lemma ResumeEffect(c: Catalog, quote: string)
    requires CanResume(c, quote)
    ensures Moved(c, CatalogStep.Resume(quote)) == c.(base := c.base.(
      queue := Requeue(c.base.queue, c.base.clock, c.jobOf[quote]), catalog := c.base.catalog[quote := Approved]))
  {
    hide Apply, Requeue, IsLatestPaused, Conflicts;
    var requeue := RequeueJob(c.jobOf[quote]);
    CT.Requeued(c.base, c.jobOf[quote]);
    CT.CatalogWriters(c.base, requeue);
    CT.CatalogWriters(Apply(c.base, requeue), WriteCatalog(c.base.catalog[quote := Approved]));
  }

  lemma PausedOk(c: Catalog, quote: string)
    requires CT.Inv(c)
    ensures quote in c.base.catalog && c.base.catalog[quote] == CatalogRecoveryRequired ==>
      quote in c.plans && CT.JobIs(c.base, c.jobOf, quote) && FailedJob(c, quote)
  {
    hide CT.ProgressesOk, ST.Inv, CT.PublishedOk;
    if quote in c.base.catalog && c.base.catalog[quote] == CatalogRecoveryRequired {
      assert CT.StateOk(c.base, c.jobOf, quote, CatalogRecoveryRequired) && CT.JobOk(c, c.jobOf[quote]);
    }
  }

  ghost predicate FailedJob(c: Catalog, quote: string)
    requires CT.JobIs(c.base, c.jobOf, quote)
  {
    c.base.queue[c.jobOf[quote]].status == Failed && c.base.queue[c.jobOf[quote]].video.None?
  }

  lemma OnlyJob(c: Catalog, job: string)
    requires CT.Inv(c) && job in c.base.queue && c.base.queue[job].kind.FinalizeCatalog?
    ensures c.base.queue[job].paymentQuote.Some? && c.base.queue[job].paymentQuote.value in c.jobOf
    ensures c.jobOf[c.base.queue[job].paymentQuote.value] == job
  {
    hide CT.ProgressesOk, CT.StatesOk, ST.Inv, CT.PublishedOk;
    assert CT.JobOk(c, job);
  }

  lemma {:induction false} LatestExists(plans: map<string, Plan>, quotes: set<string>) returns (quote: string)
    requires quotes != {} && forall q :: q in quotes ==> q in plans
    ensures quote in quotes && forall r :: r in quotes ==> plans[r].created <= plans[quote].created
    decreases |quotes|
  {
    var first :| first in quotes;
    var rest := quotes - {first};
    assert forall r :: r in quotes ==> r == first || r in rest;
    if rest == {} {
      quote := first;
    } else {
      var last := LatestExists(plans, rest);
      quote := if plans[first].created < plans[last].created then last else first;
    }
  }
}
