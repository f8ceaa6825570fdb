// A catalog quote that asks for a new approval was revoked at the gateway before anything was paid.
module DeclinedQuotes {
  import opened Outcomes
  import opened Jobs
  import opened Services
  import opened Catalog
  import G = Gateway
  import GI = GatewayInvariant
  import GT = GatewayTheorems
  import L = Ledger
  import CT = CatalogTheorems
  import ST = ServicesTheorems

  ghost predicate DeclinedOk(c: Catalog) {
    forall q :: q in c.base.catalog && c.base.catalog[q] == CatalogApprovalRequired ==> ST.Revoked(c.base.gate, q)
  }

  // What is revoked stays so over any steps of the two services.
  lemma {:induction false} StaysRevoked(s: Services, steps: seq<Step>, quote: string)
    requires ST.Inv(s) && ST.Revoked(s.gate, quote)
    ensures ST.Inv(Run(s, steps)) && ST.Revoked(Run(s, steps).gate, quote)
  {
    hide ST.Inv, ST.Revoked, Apply;
    if |steps| > 0 {
      var front := Run(s, steps[..|steps| - 1]);
      StaysRevoked(s, steps[..|steps| - 1], quote);
      ST.StepKeeps(front, steps[|steps| - 1]);
      assert GI.Inv(front.gate) by { GateOk(front); }
      ST.RevokedApply(front, steps[|steps| - 1], quote);
    }
  }

  lemma GateOk(s: Services)
    requires ST.Inv(s)
    ensures GI.Inv(s.gate)
  {
    hide GI.Inv;
  }

  // Only a final failure asks for a new approval.
  lemma {:induction false} DeclinedWriters(c: Catalog, e: CatalogStep, q: string)
    requires e != Other(FailCommit)
    requires q in Moved(c, e).base.catalog && Moved(c, e).base.catalog[q] == CatalogApprovalRequired
    ensures q in c.base.catalog && c.base.catalog[q] == CatalogApprovalRequired
  {
    hide Apply, CanPrepare, CanApprove, CanStart, CanComplete, CanPublish, Conflicts, Fenced, IsLatestPaused;
    match e {
      case Other(step) => CT.CatalogWriters(c.base, step);
      case Prepare(author, plan) => CT.PrepareIs(c, author, plan);
      case ApproveQuote(quote, storage, gas, accepted, job, max) =>
        var write := WriteCatalog(c.base.catalog[quote := Approved]);
        if CanApprove(c, quote, storage, gas, accepted, job) { ApproveOpen(c, quote, storage, gas, accepted, job); }
        CT.CatalogWriters(c.base, write);
        CT.CatalogWriters(Apply(c.base, write), EnqueueJob(job, FinalizeCatalog, None, max, Some(quote)));
      case StartUpload(claim) => CT.WorkIs(c, claim);
      case CompleteUpload(claim) => CT.WorkIs(c, claim);
      case SucceedFinal(claim) => CT.CatalogWriters(c.base, SucceedJob(claim));
      case PublishVideo(claim, plan) =>
        if CanPublish(c, claim, plan) {
          VideoKeepsCatalog(c, claim, plan);
        }
      case Resume(quote) =>
        if CanResume(c, quote) {
          CT.Requeued(c.base, c.jobOf[quote]);
          CT.CatalogWriters(Apply(c.base, RequeueJob(c.jobOf[quote])), WriteCatalog(c.base.catalog[quote := Approved]));
        }
      case _ =>
    }
  }

  lemma ApproveOpen(c: Catalog, quote: string, storage: string, gas: string, accepted: bool, job: string)
    requires CanApprove(c, quote, storage, gas, accepted, job)
    ensures c.base.open.None?
  {
    hide Conflicts;
  }

  lemma VideoKeepsCatalog(c: Catalog, claim: Claim, plan: Plan)
    requires CanPublish(c, claim, plan)
    ensures Moved(c, PublishVideo(claim, plan)).base.catalog == c.base.catalog
  {
    hide Apply, Fenced;
    CT.CatalogWriters(c.base, FencedWrite(claim));
    CT.CatalogWriters(Apply(c.base, FencedWrite(claim)), ReadyVideo(c, claim));
  }

  // The failure asks for a new approval of the job's own quote, and only with the gateway's word that it
  // was revoked.
  lemma {:induction false} FailureDeclines(c: Catalog, q: string)
    requires CT.Inv(c)
    requires q in Apply(c.base, FailCommit).catalog && Apply(c.base, FailCommit).catalog[q] == CatalogApprovalRequired
    ensures (q in c.base.catalog && c.base.catalog[q] == CatalogApprovalRequired) || ST.Revoked(c.base.gate, q)
  {
    hide Apply, CT.StatesOk, CT.ProgressesOk, CT.PublishedOk, ST.ClaimsOk, GI.Inv, ST.Revoked;
    assert ST.ClaimsOk(c.base) && ST.OpenOk(c.base);
    CT.FailedCatalog(c);
    if CT.FailedQuote(c.base).Some? && CT.FailedQuote(c.base).value == q {
      CT.OpenKind(c.base);
    }
  }

  lemma {:induction false} DeclinedStep(c: Catalog, e: CatalogStep)
    requires CT.Inv(c) && DeclinedOk(c)
    ensures DeclinedOk(Moved(c, e))
  {
    hide CT.StatesOk, CT.JobsOk, CT.ProgressesOk, CT.PublishedOk, ST.Inv, ST.Revoked, Moved, Apply, CT.BaseSteps;
    var d := Moved(c, e);
    CT.StepIsRun(c, e);
    forall q | q in d.base.catalog && d.base.catalog[q] == CatalogApprovalRequired ensures ST.Revoked(d.base.gate, q) {
      if e == Other(FailCommit) {
        FailIsApply(c);
        FailureDeclines(c, q);
      } else {
        DeclinedWriters(c, e, q);
      }
      StaysRevoked(c.base, CT.BaseSteps(c, e), q);
    }
  }

  lemma FailIsApply(c: Catalog)
    ensures Moved(c, Other(FailCommit)).base == Apply(c.base, FailCommit)
  {
    hide Apply;
  }

  // Over every run: a catalog quote left asking for a new approval has no transaction at the gateway,
  // and never gains one.
  lemma {:induction false} DeclinedNeverPaid(c: Catalog, steps: seq<CatalogStep>, q: string)
    requires CT.Inv(c) && DeclinedOk(c)
    ensures var d := Runs(c, steps);
      && DeclinedOk(d)
      && (q in d.base.catalog && d.base.catalog[q] == CatalogApprovalRequired ==>
            ST.Revoked(d.base.gate, q) && !L.HasTxFor(d.base.gate.world.ledger.txs, q))
  {
    hide CT.Inv, Moved, DeclinedOk, L.HasTxFor, ST.Revoked;
    if |steps| > 0 {
      DeclinedNeverPaid(c, steps[..|steps| - 1], q);
      CT.RunKeeps(c, steps[..|steps| - 1]);
      DeclinedStep(Runs(c, steps[..|steps| - 1]), steps[|steps| - 1]);
    }
    CT.RunKeeps(c, steps);
    DeclinedUnpaid(Runs(c, steps), q);
  }

  lemma DeclinedUnpaid(c: Catalog, q: string)
    requires CT.Inv(c) && DeclinedOk(c)
    ensures q in c.base.catalog && c.base.catalog[q] == CatalogApprovalRequired ==>
      ST.Revoked(c.base.gate, q) && !L.HasTxFor(c.base.gate.world.ledger.txs, q)
  {
    hide CT.StatesOk, CT.JobsOk, CT.ProgressesOk, CT.PublishedOk, GI.Inv;
    GT.CancelledUnpaidRow(c.base.gate, q);
  }
}
