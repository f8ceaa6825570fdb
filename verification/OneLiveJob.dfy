// The unique indexes of the job table, over every run of both services: at most one job of a kind is
// queued or running for a video, and at most one catalog publication and one finalization in all.
module OneLiveJob {
  import opened Outcomes
  import opened Contract
  import opened Jobs
  import opened Services

  predicate Live(row: JobRow) {
    row.status == Queued || row.status == Running
  }

  // Two jobs that must not be live together.
  predicate Rivals(a: JobRow, b: JobRow) {
    && a.kind == b.kind
    && ((a.video.Some? && a.video == b.video) || (a.kind.PublishCatalog? && a.video.None? && b.video.None?) || a.kind.FinalizeCatalog?)
  }

  ghost predicate Unique(q: Queue) {
    forall a, b :: a in q && b in q && a != b && Live(q[a]) && Live(q[b]) ==> !Rivals(q[a], q[b])
  }

  // Every live job was live before, as the same job.
  ghost predicate NoneRevived(q: Queue, r: Queue) {
    forall id :: id in r && Live(r[id]) ==> id in q && Live(q[id]) && r[id].kind == q[id].kind && r[id].video == q[id].video
  }

  lemma UniqueKept(q: Queue, r: Queue)
    requires Unique(q) && NoneRevived(q, r)
    ensures Unique(r)
  {
  }

  lemma ReleasesRevive(q: Queue, now: int, lease: nat, id: string, worker: string, c: Claim, delay: int)
    ensures id in q && Claimable(q[id], now) ==> NoneRevived(q, Acquire(q, now, lease, worker, id))
    ensures NoneRevived(q, Renew(q, now, lease, c)) && NoneRevived(q, Succeed(q, now, c)) && NoneRevived(q, RetryLater(q, now, c, delay))
    ensures NoneRevived(q, Interrupt(q, now, id, worker)) && NoneRevived(q, Recover(q, now)) && NoneRevived(q, q)
  {
  }

  // A job that is added or taken up again has no live rival.
  lemma AddedUnique(q: Queue, id: string, row: JobRow)
    requires Unique(q) && (id in q ==> !Live(q[id])) && !Conflicts(q, row.kind, row.video)
    ensures Unique(q[id := row])
  {
    var r := q[id := row];
    forall a, b | a in r && b in r && a != b && Live(r[a]) && Live(r[b]) ensures !Rivals(r[a], r[b]) {
      if a == id {
        NoRival(q, row, b);
      } else if b == id {
        NoRival(q, row, a);
      }
    }
  }

  lemma NoRival(q: Queue, row: JobRow, other: string)
    requires other in q && Live(q[other]) && !Conflicts(q, row.kind, row.video)
    ensures !Rivals(row, q[other]) && !Rivals(q[other], row)
  {
  }

  lemma EntersUnique(q: Queue, now: int, id: string, kind: JobKind, video: Option<string>, max: nat, quote: Option<string>)
    requires Unique(q)
    ensures Unique(Enqueue(q, now, id, kind, video, max, quote)) && Unique(Requeue(q, now, id))
  {
    hide Conflicts, Unique;
    if id !in q && !Conflicts(q, kind, video) {
      AddedUnique(q, id, JobRow(kind, video, Queued, 0, max, None, None, now, now, quote));
    }
    if id in q && q[id].status == Failed && !Conflicts(q, q[id].kind, q[id].video) {
      AddedUnique(q, id, Requeue(q, now, id)[id]);
    }
  }

  lemma {:induction false} WriterUnique(s: Services, step: Step)
    requires Unique(s.queue)
    ensures Unique(Writer(s, step).queue)
  {
    hide Unique, NoneRevived, Acquire, Renew, Succeed, RetryLater, Interrupt, Recover, Requeue, Enqueue, Owns, QuoteOf, Final;
    var q := s.queue;
    match step {
      case ClaimJob(id, worker) =>
        if IsNext(q, s.clock, id) {
          ReleasesRevive(q, s.clock, s.lease, id, worker, Claim("", ProcessVideo, None, "", 0, 0), 0);
          UniqueKept(q, Acquire(q, s.clock, s.lease, worker, id));
        }
      case RenewJob(c) =>
        ReleasesRevive(q, s.clock, s.lease, "", "", c, 0);
        UniqueKept(q, Renew(q, s.clock, s.lease, c));
      case SucceedJob(c) =>
        ReleasesRevive(q, s.clock, s.lease, "", "", c, 0);
        UniqueKept(q, Succeed(q, s.clock, c));
      case RetryJob(c, delay) =>
        ReleasesRevive(q, s.clock, s.lease, "", "", c, delay);
        UniqueKept(q, RetryLater(q, s.clock, c, delay));
      case InterruptJob(id, worker) =>
        ReleasesRevive(q, s.clock, s.lease, id, worker, Claim("", ProcessVideo, None, "", 0, 0), 0);
        UniqueKept(q, Interrupt(q, s.clock, id, worker));
      case RecoverJobs =>
        ReleasesRevive(q, s.clock, s.lease, "", "", Claim("", ProcessVideo, None, "", 0, 0), 0);
        UniqueKept(q, Recover(q, s.clock));
      case RequeueJob(id) => EntersUnique(q, s.clock, id, ProcessVideo, None, 0, None);
      case EnqueueJob(id, kind, video, max, quote) => EntersUnique(q, s.clock, id, kind, video, max, quote);
      case _ =>
    }
  }

  lemma {:induction false} StepUnique(s: Services, step: Step)
    requires Unique(s.queue)
    ensures Unique(Apply(s, step).queue)
  {
    hide Unique, Writer, GateAfter, Cancelled, QuoteOf;
    WriterUnique(s, step);
    if s.open.Some? && s.open.value.claim.id in s.queue {
      FailedUnique(s.queue, s.open.value.claim.id);
    }
  }

  lemma FailedUnique(q: Queue, id: string)
    requires Unique(q) && id in q
    ensures Unique(q[id := Released(q[id], Failed)])
  {
  }

  // Over every run no two rivals are queued or running together.
  lemma {:induction false} RunUnique(s: Services, steps: seq<Step>)
    requires Unique(s.queue)
    ensures Unique(Run(s, steps).queue)
  {
    hide Unique, Apply;
    if |steps| > 0 {
      RunUnique(s, steps[..|steps| - 1]);
      StepUnique(Run(s, steps[..|steps| - 1]), steps[|steps| - 1]);
    }
  }
}
