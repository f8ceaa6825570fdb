// What catalog publication keeps over every run, and the one failure that breaks its exclusion.
module CatalogTheorems {
  import opened Outcomes
  import opened Amounts
  import opened Contract
  import opened Jobs
  import opened Services
  import opened Catalog
  import ST = ServicesTheorems

  // -- The invariant --

  predicate Live(row: JobRow) {
    row.status == Queued || row.status == Running
  }

  ghost predicate JobIs(s: Services, jobOf: map<string, string>, q: string) {
    && q in jobOf && jobOf[q] in s.queue
    && s.queue[jobOf[q]].kind.FinalizeCatalog?
    && s.queue[jobOf[q]].paymentQuote == Some(q)
  }

  // Where the job of an approval stands in each of its states.
  ghost predicate StateOk(s: Services, jobOf: map<string, string>, q: string, state: CatalogState) {
    match state
    case Draft => q !in jobOf
    case Replaced => q !in jobOf
    case Approved => JobIs(s, jobOf, q) && Live(s.queue[jobOf[q]])
    case InUpload => JobIs(s, jobOf, q) && Live(s.queue[jobOf[q]])
    case Complete => JobIs(s, jobOf, q) && s.queue[jobOf[q]].status != Failed
    case CatalogApprovalRequired => JobIs(s, jobOf, q) && s.queue[jobOf[q]].status == Failed
    case CatalogRecoveryRequired => JobIs(s, jobOf, q) && s.queue[jobOf[q]].status == Failed
  }

  ghost predicate StatesOk(c: Catalog) {
    forall q :: q in c.base.catalog ==> q in c.plans && StateOk(c.base, c.jobOf, q, c.base.catalog[q])
  }

  ghost predicate JobOk(c: Catalog, id: string)
    requires id in c.base.queue
  {
    var row := c.base.queue[id];
    row.kind.FinalizeCatalog? ==>
      row.video.None? && row.paymentQuote.Some? && row.paymentQuote.value in c.base.catalog
      && row.paymentQuote.value in c.jobOf && c.jobOf[row.paymentQuote.value] == id
  }

  ghost predicate JobsOk(c: Catalog) {
    && (forall id :: id in c.base.queue ==> JobOk(c, id))
    && (forall q :: q in c.jobOf ==> q in c.base.catalog && c.jobOf[q] in c.base.queue)
  }

  ghost predicate Current(s: Services, claim: Claim) {
    claim.id in s.queue && s.queue[claim.id].status == Running && s.queue[claim.id].attempts == claim.attempts
  }

  ghost predicate ProgressOk(c: Catalog, claim: Claim)
    requires claim in c.progress
  {
    && claim in c.base.claims && claim.kind.FinalizeCatalog?
    && (Current(c.base, claim) ==>
          && QuoteFor(c, claim).Some? && QuoteFor(c, claim).value in c.base.catalog
          && var state := c.base.catalog[QuoteFor(c, claim).value];
             match c.progress[claim]
             case Cleared => state in {Approved, InUpload}
             case Started => state == InUpload
             case Ended => state == Complete)
  }

  ghost predicate ProgressesOk(c: Catalog) {
    forall claim :: claim in c.progress ==> ProgressOk(c, claim)
  }

  ghost predicate Inv(c: Catalog) {
    && ST.Inv(c.base)
    && StatesOk(c)
    && JobsOk(c)
    && ProgressesOk(c)
    && PublishedOk(c)
  }

  ghost predicate PublishedOk(c: Catalog) {
    && (forall i :: 0 <= i < |c.published| ==> OlderThan(c.published[i], c.revision))
    && (forall i, j :: 0 <= i < j < |c.published| ==> OlderThan(c.published[i], c.published[j].revision))
    && c.snapshot == (if c.published == [] then None else Some(c.published[|c.published| - 1]))
    && (c.file.Some? ==> c.file.value in c.published)
    && AddressesOk(c.published)
  }

  // Row `k` was paid for, row `i` goes on naming its documents, and the rows between were refreshed.
  ghost predicate NamedBy(rows: seq<Snapshot>, k: nat, i: nat)
    requires k <= i < |rows|
  {
    && !rows[k].pending && rows[i].addresses == rows[k].addresses
    && forall j :: k < j <= i ==> rows[j].pending
  }

  // The addresses in a row are those of the documents last stored and paid for before it.
  ghost predicate NamesLastPaid(rows: seq<Snapshot>, i: nat)
    requires i < |rows|
  {
    || (exists k :: 0 <= k <= i && NamedBy(rows, k, i))
    || (rows[i].addresses == Inherited && forall j :: 0 <= j <= i ==> rows[j].pending)
  }

  // A row that was paid for names its own documents; a refreshed one publishes no video's upload.
  predicate OwnAddresses(s: Snapshot) {
    if s.pending then s.withVideo.None?
    else s.addresses.Stored? && s.addresses.revision == s.revision && s.addresses.withVideo == s.withVideo
  }

  ghost predicate AddressesOk(rows: seq<Snapshot>) {
    forall i :: 0 <= i < |rows| ==> OwnAddresses(rows[i]) && NamesLastPaid(rows, i)
  }

  // A snapshot gives way to the revision it was quoted at, one with a new video only to a later one.
  predicate OlderThan(s: Snapshot, revision: int) {
    if s.withVideo.Some? then s.revision < revision else s.revision <= revision
  }

  lemma BeginOk(network: string, guard: bool, clock: int, lease: nat, revision: int)
    ensures Inv(Begin(Start(network, guard, clock, lease), revision))
    ensures EndsOk(Begin(Start(network, guard, clock, lease), revision))
  {
    ST.StartOk(network, guard, clock, lease);
  }

  // -- What the services' steps do to the catalog and its jobs --

  lemma CatalogWriters(s: Services, step: Step)
    ensures !step.WriteCatalog? && !step.FailCommit? ==> Apply(s, step).catalog == s.catalog
    ensures step.WriteCatalog? && s.open.None? ==> Apply(s, step) == s.(catalog := step.approvals)
  {
    hide Cancelled, GateAfter, Owns, Acquire, Renew, Succeed, RetryLater, Interrupt, Recover, Requeue, Enqueue;
    NoGate(s, step);
  }

  lemma NoGate(s: Services, step: Step)
    ensures step.WriteCatalog? || step.EnqueueJob? || step.RequeueJob? || step.SucceedJob? || step.FailCommit? ==> GateAfter(s, step) == s.gate
  {
  }

  ghost predicate SameJob(a: JobRow, b: JobRow) {
    b.kind == a.kind && b.video == a.video && b.paymentQuote == a.paymentQuote
  }

  // A live job stays live, and an ended one ended, and it remains the same job.
  ghost predicate RowKept(a: JobRow, b: JobRow) {
    && SameJob(a, b)
    && (a.kind.FinalizeCatalog? ==> Live(b) == Live(a) && (!Live(a) ==> b.status == a.status))
  }

  ghost predicate KeepsJobs(q: Queue, r: Queue) {
    && (forall id :: id in q ==> id in r && RowKept(q[id], r[id]))
    && (forall id :: id in r && id !in q ==> r[id].kind != FinalizeCatalog)
  }

  lemma ReplacedKeeps(q: Queue, id: string, row: JobRow)
    ensures KeepsJobs(q, q)
    ensures (if id in q then RowKept(q[id], row) else row.kind != FinalizeCatalog) ==> KeepsJobs(q, q[id := row])
  {
  }

  lemma QueueKept(q: Queue, now: int, lease: nat, id: string, worker: string, c: Claim, delay: int)
    ensures id in q && Claimable(q[id], now) ==> KeepsJobs(q, Acquire(q, now, lease, worker, id))
    ensures KeepsJobs(q, Renew(q, now, lease, c))
    ensures c.id in q && q[c.id].kind != FinalizeCatalog ==> KeepsJobs(q, Succeed(q, now, c))
    ensures KeepsJobs(q, RetryLater(q, now, c, delay))
    ensures KeepsJobs(q, Interrupt(q, now, id, worker))
  {
    if id in q {
      ReplacedKeeps(q, id, Acquire(q, now, lease, worker, id)[id]);
      ReplacedKeeps(q, id, Interrupt(q, now, id, worker)[id]);
    }
    if c.id in q {
      ReplacedKeeps(q, c.id, Renew(q, now, lease, c)[c.id]);
      ReplacedKeeps(q, c.id, Succeed(q, now, c)[c.id]);
      ReplacedKeeps(q, c.id, RetryLater(q, now, c, delay)[c.id]);
    }
  }

  lemma QueueKeptToo(q: Queue, now: int, id: string, kind: JobKind, video: Option<string>, max: nat, quote: Option<string>)
    ensures KeepsJobs(q, Recover(q, now))
    ensures id in q && q[id].kind != FinalizeCatalog ==> KeepsJobs(q, Requeue(q, now, id))
    ensures kind != FinalizeCatalog ==> KeepsJobs(q, Enqueue(q, now, id, kind, video, max, quote))
  {
    hide Conflicts;
    if id in q {
      ReplacedKeeps(q, id, Requeue(q, now, id)[id]);
    } else {
      ReplacedKeeps(q, id, JobRow(kind, video, Queued, 0, max, None, None, now, now, quote));
    }
  }

  lemma ClaimKind(s: Services, c: Claim)
    requires ST.ClaimsOk(s)
    ensures Fenced(s, c) ==> s.queue[c.id].kind == c.kind
  {
  }

  lemma WriterKeepsJobs(c: Catalog, step: Step)
    requires ST.ClaimsOk(c.base) && Ordinary(c, step)
    ensures KeepsJobs(c.base.queue, Writer(c.base, step).queue)
  {
    hide QuoteOf, KeepsJobs, Acquire, Renew, Succeed, RetryLater, Interrupt, Recover, Requeue, Enqueue, Owns, ST.ClaimsOk;
    var s, any := c.base, Claim("", ProcessVideo, None, "", 0, 0);
    ReplacedKeeps(s.queue, "", JobRow(ProcessVideo, None, Queued, 0, 0, None, None, 0, 0, None));
    match step {
      case ClaimJob(id, worker) => QueueKept(s.queue, s.clock, s.lease, id, worker, any, 0);
      case RenewJob(claim) => QueueKept(s.queue, s.clock, s.lease, "", "", claim, 0);
      case SucceedJob(claim) => SucceedKeeps(c, claim);
      case RetryJob(claim, delay) => QueueKept(s.queue, s.clock, s.lease, "", "", claim, delay);
      case InterruptJob(id, worker) => QueueKept(s.queue, s.clock, s.lease, id, worker, any, 0);
      case RecoverJobs => QueueKeptToo(s.queue, s.clock, "", ProcessVideo, None, 0, None);
      case RequeueJob(id) => QueueKeptToo(s.queue, s.clock, id, ProcessVideo, None, 0, None);
      case EnqueueJob(id, kind, video, max, quote) => QueueKeptToo(s.queue, s.clock, id, kind, video, max, quote);
      case _ =>
    }
  }

  lemma SucceedKeeps(c: Catalog, claim: Claim)
    requires ST.ClaimsOk(c.base) && claim.kind != FinalizeCatalog
    ensures KeepsJobs(c.base.queue, Write(c.base, claim, Succeed(c.base.queue, c.base.clock, claim)).queue)
  {
    hide KeepsJobs, Succeed, ST.ClaimsOk;
    var s := c.base;
    ReplacedKeeps(s.queue, "", JobRow(ProcessVideo, None, Queued, 0, 0, None, None, 0, 0, None));
    ClaimKind(s, claim);
    QueueKept(s.queue, s.clock, s.lease, "", "", claim, 0);
  }

  lemma OrdinaryKeepsJobs(c: Catalog, step: Step)
    requires ST.ClaimsOk(c.base) && Ordinary(c, step) && !step.FailCommit?
    ensures KeepsJobs(c.base.queue, Apply(c.base, step).queue)
  {
    hide Cancelled, GateAfter, KeepsJobs, Owns, Writer, ST.ClaimsOk;
    ReplacedKeeps(c.base.queue, "", JobRow(ProcessVideo, None, Queued, 0, 0, None, None, 0, 0, None));
    WriterKeepsJobs(c, step);
  }

  // -- The admin database's part of each catalog transaction --

  function NewJob(s: Services, quote: string, max: nat): JobRow {
    JobRow(FinalizeCatalog, None, Queued, 0, max, None, None, s.clock, s.clock, Some(quote))
  }

  lemma Enqueued(s: Services, job: string, max: nat, quote: string)
    requires s.open.None? && IsJobId(job) && job !in s.queue && !Conflicts(s.queue, FinalizeCatalog, None)
    ensures Apply(s, EnqueueJob(job, FinalizeCatalog, None, max, Some(quote))) == s.(queue := s.queue[job := NewJob(s, quote, max)])
  {
    hide Conflicts;
    NoGate(s, EnqueueJob(job, FinalizeCatalog, None, max, Some(quote)));
  }

  lemma Requeued(s: Services, job: string)
    requires s.open.None? && job in s.queue
    ensures var t := Apply(s, RequeueJob(job)); t == s.(queue := Requeue(s.queue, s.clock, job))
  {
    hide Requeue;
    NoGate(s, RequeueJob(job));
  }

  lemma SucceededBy(s: Services, claim: Claim)
    ensures var t := Apply(s, SucceedJob(claim));
      t == s || (Fenced(s, claim) && s.open.None?
                 && t == s.(queue := s.queue[claim.id := Released(s.queue[claim.id], Succeeded)], writes := s.writes + [claim], videos := t.videos))
  {
    NoGate(s, SucceedJob(claim));
  }

  lemma CommittedBy(s: Services)
    ensures var t := Apply(s, FailCommit);
      if s.open.Some? && s.open.value.claim.id in s.queue then t == DoFailCommit(s, s.open.value) else t == s
  {
    hide DoFailCommit;
    NoGate(s, FailCommit);
    KeepsGate(s);
  }

  lemma KeepsGate(s: Services)
    ensures s.open.Some? && s.open.value.claim.id in s.queue ==> DoFailCommit(s, s.open.value).gate == s.gate
  {
  }

  // -- Every step keeps the invariant --

  // Nobody who had lost a job becomes its current claim again.
  lemma StillCurrent(s: Services, t: Services, claim: Claim)
    requires ST.ClaimsOk(s) && claim in s.claims
    requires t.queue == s.queue || Moves(s.queue, t.queue, s.clock, s.lease)
    ensures Current(t, claim) ==> Current(s, claim)
  {
    hide Valid, RowValid;
    assert claim.id in s.queue && claim.attempts <= s.queue[claim.id].attempts;
    if t.queue != s.queue {
      assert RowMoves(s.queue[claim.id], t.queue[claim.id], s.clock, s.lease);
    }
  }

  lemma QuietKeeps(c: Catalog, t: Services)
    requires StatesOk(c) && JobsOk(c) && ProgressesOk(c) && ST.ClaimsOk(c.base)
    requires t.catalog == c.base.catalog && KeepsJobs(c.base.queue, t.queue)
    requires t.queue == c.base.queue || Moves(c.base.queue, t.queue, c.base.clock, c.base.lease)
    requires forall claim :: claim in c.base.claims ==> claim in t.claims
    ensures var d := c.(base := t); StatesOk(d) && JobsOk(d) && ProgressesOk(d)
  {
    hide Moves, ST.ClaimsOk;
    var d := c.(base := t);
    assert JobsOk(d) by { QuietJobs(c, t); }
    forall claim | claim in d.progress ensures ProgressOk(d, claim) {
      assert ProgressOk(c, claim);
      StillCurrent(c.base, t, claim);
    }
  }

  lemma QuietJobs(c: Catalog, t: Services)
    requires JobsOk(c) && t.catalog == c.base.catalog && KeepsJobs(c.base.queue, t.queue)
    ensures JobsOk(c.(base := t))
  {
    forall id | id in t.queue ensures JobOk(c.(base := t), id) {
      assert id in c.base.queue ==> JobOk(c, id) && RowKept(c.base.queue[id], t.queue[id]);
    }
  }

  lemma {:induction false} ApplyMoves(s: Services, step: Step)
    requires ST.Inv(s)
    ensures var t := Apply(s, step);
      && (t.queue == s.queue || Moves(s.queue, t.queue, s.clock, s.lease))
      && (forall claim :: claim in s.claims ==> claim in t.claims)
  {
    hide Admin, GateAfter, Moves;
    assert ST.AdminOk(s) && ST.OpenOk(s);
    hide ST.Inv;
    ST.AdminMoves(s, step);
    ClaimsStay(s, step);
  }

  lemma ClaimsStay(s: Services, step: Step)
    ensures forall claim :: claim in s.claims ==> claim in Admin(s, step).claims
  {
    hide Cancelled, Owns, Acquire, Renew, Succeed, RetryLater, Interrupt, Recover, Requeue, Enqueue, IsNext;
  }

  lemma {:induction false} OrdinaryKeeps(c: Catalog, step: Step)
    requires Inv(c) && Ordinary(c, step) && !step.FailCommit?
    ensures Inv(Base(c, step))
  {
    hide Apply, Moves, KeepsJobs, StatesOk, JobsOk, ProgressesOk;
    var t := Apply(c.base, step);
    assert ST.ClaimsOk(c.base);
    ST.StepKeeps(c.base, step);
    hide ST.Inv;
    OrdinaryKeepsJobs(c, step);
    CatalogWriters(c.base, step);
    ApplyMoves(c.base, step);
    QuietKeeps(c, t);
  }

  // One approval changes state, and the row of its job with it.
  lemma OneStateChanged(c: Catalog, d: Catalog, q: string, state: CatalogState)
    requires StatesOk(c) && JobsOk(c)
    requires q in c.base.catalog && d.base.catalog == c.base.catalog[q := state]
    requires d.plans == c.plans && d.jobOf == c.jobOf
    requires JobIs(c.base, c.jobOf, q) && JobIs(d.base, d.jobOf, q)
    requires d.base.queue == c.base.queue[c.jobOf[q] := d.base.queue[c.jobOf[q]]]
    requires d.base.queue[c.jobOf[q]].video == c.base.queue[c.jobOf[q]].video
    requires StateOk(d.base, d.jobOf, q, state)
    ensures StatesOk(d) && JobsOk(d)
  {
    forall r | r in d.base.catalog ensures r in d.plans && StateOk(d.base, d.jobOf, r, d.base.catalog[r]) {
      assert StateOk(c.base, c.jobOf, r, c.base.catalog[r]);
    }
    forall id | id in d.base.queue ensures JobOk(d, id) {
      assert JobOk(c, id);
    }
  }

  // The claims at work on other approvals are not disturbed.
  lemma OthersProgress(c: Catalog, d: Catalog, q: string)
    requires ST.ClaimsOk(c.base) && JobsOk(c) && ProgressesOk(c)
    requires JobIs(c.base, c.jobOf, q)
    requires forall r :: r != q && r in c.base.catalog ==> r in d.base.catalog && d.base.catalog[r] == c.base.catalog[r]
    requires forall id :: id != c.jobOf[q] && id in c.base.queue ==> id in d.base.queue && d.base.queue[id] == c.base.queue[id]
    requires forall claim :: claim in d.progress && claim.id != c.jobOf[q] ==> claim in c.progress && d.progress[claim] == c.progress[claim]
    requires d.base.claims == c.base.claims
    ensures forall claim :: claim in d.progress && claim.id != c.jobOf[q] ==> ProgressOk(d, claim)
  {
    forall claim | claim in d.progress && claim.id != c.jobOf[q] ensures ProgressOk(d, claim) {
      assert ProgressOk(c, claim);
      assert claim.id in c.base.queue && JobOk(c, claim.id);
    }
  }

  // Only one claim is current for a job.
  lemma OneCurrent(s: Services, a: Claim, b: Claim)
    requires ST.ClaimsOk(s) && a in s.claims && b in s.claims && a.id == b.id
    requires Current(s, a) && Current(s, b)
    ensures a == b
  {
    var i :| 0 <= i < |s.claims| && s.claims[i] == a;
    var j :| 0 <= j < |s.claims| && s.claims[j] == b;
    assert !(i < j) && !(j < i);
  }

  // A claim writes its own approval's next state, behind the fence.
  lemma {:induction false} ClaimWrites(c: Catalog, d: Catalog, claim: Claim, state: CatalogState)
    requires ST.ClaimsOk(c.base) && StatesOk(c) && JobsOk(c) && ProgressesOk(c)
    requires claim in c.progress && Fenced(c.base, claim) && HasPlan(c, claim)
    requires c.progress[claim] != Ended
    requires d.base == c.base.(catalog := c.base.catalog[QuoteFor(c, claim).value := state])
    requires state in {InUpload, Complete}
    requires d.progress == c.progress[claim := if state == InUpload then Started else Ended]
    requires d.plans == c.plans && d.jobOf == c.jobOf
    ensures StatesOk(d) && JobsOk(d) && ProgressesOk(d)
  {
    var q := QuoteFor(c, claim).value;
    assert ProgressOk(c, claim) && JobOk(c, claim.id) && StateOk(c.base, c.jobOf, q, c.base.catalog[q]);
    OneStateChanged(c, d, q, state);
    OthersProgress(c, d, q);
    hide StatesOk, JobsOk, ST.ClaimsOk;
    forall other | other in d.progress ensures ProgressOk(d, other) {
      assert other in c.progress && ProgressOk(c, other);
      if other.id == claim.id && Current(c.base, other) {
        OneCurrent(c.base, claim, other);
      }
    }
  }

  lemma Appended(rows: seq<Snapshot>, s: Snapshot)
    requires AddressesOk(rows) && OwnAddresses(s)
    requires s.pending ==> s.addresses == if rows == [] then Inherited else rows[|rows| - 1].addresses
    ensures AddressesOk(rows + [s])
  {
    hide NamesLastPaid, OwnAddresses;
    var after := rows + [s];
    forall i | 0 <= i < |after| ensures OwnAddresses(after[i]) && NamesLastPaid(after, i) {
      if i < |rows| {
        SamePrefix(rows, after, i);
      } else {
        NewRow(rows, s);
      }
    }
  }

  lemma NewRow(rows: seq<Snapshot>, s: Snapshot)
    requires rows != [] ==> NamesLastPaid(rows, |rows| - 1)
    requires s.pending ==> s.addresses == if rows == [] then Inherited else rows[|rows| - 1].addresses
    ensures NamesLastPaid(rows + [s], |rows|)
  {
    var n, after := |rows|, rows + [s];
    assert forall j :: 0 <= j < n ==> after[j] == rows[j];
    assert after[n] == s;
    if !s.pending {
      assert NamedBy(after, n, n);
    } else if n > 0 {
      var last := n - 1;
      if k :| 0 <= k <= last && NamedBy(rows, k, last) {
        assert NamedBy(after, k, n);
      }
    }
  }

  lemma SamePrefix(rows: seq<Snapshot>, after: seq<Snapshot>, i: nat)
    requires i < |rows| <= |after| && after[..|rows|] == rows
    requires NamesLastPaid(rows, i)
    ensures NamesLastPaid(after, i)
  {
    assert forall j :: 0 <= j < |rows| ==> after[j] == rows[j];
    if k :| 0 <= k <= i && NamedBy(rows, k, i) {
      assert NamedBy(after, k, i);
    }
  }

  // What the two writes of `finalize` do.
  lemma WorkIs(c: Catalog, claim: Claim)
    ensures CanStart(c, claim) ==> Moved(c, StartUpload(claim)) == c.(
      base := c.base.(catalog := c.base.catalog[QuoteFor(c, claim).value := InUpload]), progress := c.progress[claim := Started])
    ensures CanComplete(c, claim) ==>
      var q := QuoteFor(c, claim).value; var s := Paid(q, c.plans[q].revision, None);
      Moved(c, CompleteUpload(claim)) == c.(
        base := c.base.(catalog := c.base.catalog[q := Complete]), progress := c.progress[claim := Ended],
        snapshot := Some(s), published := c.published + [s])
  {
    hide Apply, Fenced;
    if QuoteFor(c, claim).Some? {
      CatalogWriters(c.base, WriteCatalog(c.base.catalog[QuoteFor(c, claim).value := InUpload]));
      CatalogWriters(c.base, WriteCatalog(c.base.catalog[QuoteFor(c, claim).value := Complete]));
    }
  }

  // One more row, of the current revision.
  lemma Committed(c: Catalog, d: Catalog, s: Snapshot)
    requires PublishedOk(c) && d.published == c.published + [s] && d.snapshot == Some(s) && d.file == c.file
    requires OwnAddresses(s)
    requires s.pending ==> s.addresses == if c.snapshot.Some? then c.snapshot.value.addresses else Inherited
    requires s.revision == c.revision <= d.revision && OlderThan(s, d.revision)
    ensures PublishedOk(d)
  {
    hide AddressesOk;
    Appended(c.published, s);
  }

  lemma {:induction false} WorkKeeps(c: Catalog, e: CatalogStep)
    requires Inv(c) && (e.StartUpload? || e.CompleteUpload?)
    ensures Inv(Moved(c, e))
  {
    hide Apply, StatesOk, JobsOk, ProgressesOk, PublishedOk;
    assert ST.ClaimsOk(c.base);
    var d := Moved(c, e);
    WorkIs(c, e.claim);
    if d != c {
      var claim := e.claim;
      var q := QuoteFor(c, claim).value;
      var state := if e.StartUpload? then InUpload else Complete;
      var write := WriteCatalog(c.base.catalog[q := state]);
      CatalogWriters(c.base, write);
      ST.StepKeeps(c.base, write);
      ClaimWrites(c, d, claim, state);
      if e.CompleteUpload? {
        Committed(c, d, d.snapshot.value);
      } else {
        SamePublished(c, d);
      }
    }
  }

  lemma SameTables(c: Catalog, d: Catalog)
    requires d.base == c.base && d.plans == c.plans && d.jobOf == c.jobOf
    ensures StatesOk(c) ==> StatesOk(d)
    ensures JobsOk(c) ==> JobsOk(d)
  {
    if JobsOk(c) {
      forall id | id in d.base.queue ensures JobOk(d, id) {
        assert JobOk(c, id);
      }
    }
  }

  lemma ReadProgress(c: Catalog, claim: Claim)
    requires ProgressesOk(c)
    ensures ProgressesOk(DoRead(c, claim))
  {
    var d := DoRead(c, claim);
    forall other | other in d.progress ensures ProgressOk(d, other) {
      assert other in c.progress ==> ProgressOk(c, other);
    }
  }

  lemma {:induction false} ReadKeeps(c: Catalog, claim: Claim)
    requires Inv(c)
    ensures Inv(DoRead(c, claim))
  {
    hide ST.Inv, StatesOk, JobsOk, ProgressesOk, PublishedOk;
    ReadProgress(c, claim);
    SameTables(c, DoRead(c, claim));
    SamePublished(c, DoRead(c, claim));
  }

  lemma DraftedOk(c: Catalog, d: Catalog, quote: string)
    requires StatesOk(c) && JobsOk(c) && ProgressesOk(c)
    requires quote !in c.base.catalog
    requires d.base == c.base.(catalog := Drafted(c.base.catalog, quote))
    requires quote in d.plans && forall q :: q in c.plans ==> q in d.plans
    requires d.jobOf == c.jobOf && d.progress == c.progress
    ensures StatesOk(d) && JobsOk(d) && ProgressesOk(d)
  {
    forall q | q in d.base.catalog ensures q in d.plans && StateOk(d.base, d.jobOf, q, d.base.catalog[q]) {
      if q != quote {
        assert StateOk(c.base, c.jobOf, q, c.base.catalog[q]);
      }
    }
    forall id | id in d.base.queue ensures JobOk(d, id) {
      assert JobOk(c, id);
    }
    forall claim | claim in d.progress ensures ProgressOk(d, claim) {
      assert ProgressOk(c, claim);
    }
  }

  lemma PrepareIs(c: Catalog, author: Option<Claim>, plan: Plan)
    ensures Moved(c, CatalogStep.Prepare(author, plan)) ==
      if CanPrepare(c, author, plan)
      then c.(base := c.base.(catalog := Drafted(c.base.catalog, plan.quote)), plans := c.plans[plan.quote := plan]) else c
  {
    hide Fenced, Apply, Drafted, Reconciled;
    CatalogWriters(c.base, WriteCatalog(Drafted(c.base.catalog, plan.quote)));
  }

  lemma {:induction false} PrepareKeeps(c: Catalog, author: Option<Claim>, plan: Plan)
    requires Inv(c)
    ensures Inv(Moved(c, Prepare(author, plan)))
  {
    hide Apply, Fenced, StatesOk, JobsOk, ProgressesOk, Reconciled, Drafted, PublishedOk;
    var d := Moved(c, Prepare(author, plan));
    if d != c {
      SamePublished(c, d);
      var write := WriteCatalog(Drafted(c.base.catalog, plan.quote));
      CatalogWriters(c.base, write);
      ST.StepKeeps(c.base, write);
      hide ST.Inv;
      DraftedOk(c, d, plan.quote);
    }
  }

  lemma {:induction false} ApprovedOk(c: Catalog, d: Catalog, quote: string, job: string, max: nat)
    requires ST.ClaimsOk(c.base) && StatesOk(c) && JobsOk(c) && ProgressesOk(c)
    requires quote in c.base.catalog && c.base.catalog[quote] == Draft && job !in c.base.queue
    requires d == c.(
      base := c.base.(catalog := c.base.catalog[quote := Approved], queue := c.base.queue[job := NewJob(c.base, quote, max)]),
      jobOf := c.jobOf[quote := job], confirmed := d.confirmed)
    ensures StatesOk(d) && JobsOk(d) && ProgressesOk(d)
  {
    assert StateOk(c.base, c.jobOf, quote, Draft);
    forall q | q in d.base.catalog ensures q in d.plans && StateOk(d.base, d.jobOf, q, d.base.catalog[q]) {
      assert StateOk(c.base, c.jobOf, q, c.base.catalog[q]);
    }
    forall id | id in d.base.queue ensures JobOk(d, id) {
      assert id != job ==> JobOk(c, id);
    }
    forall claim | claim in d.progress ensures ProgressOk(d, claim) {
      assert ProgressOk(c, claim) && claim.id in c.base.queue && JobOk(c, claim.id);
    }
  }

  lemma {:induction false} ApproveKeeps(c: Catalog, quote: string, storage: string, gas: string, accepted: bool, job: string, max: nat)
    requires Inv(c)
    ensures Inv(Moved(c, ApproveQuote(quote, storage, gas, accepted, job, max)))
  {
    hide Apply, StatesOk, JobsOk, ProgressesOk, Conflicts, PublishedOk;
    var d := Moved(c, ApproveQuote(quote, storage, gas, accepted, job, max));
    if d != c {
      SamePublished(c, d);
      assert ST.ClaimsOk(c.base);
      var write, enqueue := WriteCatalog(c.base.catalog[quote := Approved]), EnqueueJob(job, FinalizeCatalog, None, max, Some(quote));
      CatalogWriters(c.base, write);
      ST.StepKeeps(c.base, write);
      ST.StepKeeps(Apply(c.base, write), enqueue);
      hide ST.Inv;
      Enqueued(Apply(c.base, write), job, max, quote);
      ApprovedOk(c, d, quote, job, max);
    }
  }

  // A job leaves its approval in a state that fits how the job ended, or was taken up again.
  lemma EndedOk(c: Catalog, d: Catalog, job: string, row: JobRow, state: CatalogState)
    requires ST.ClaimsOk(c.base) && StatesOk(c) && JobsOk(c) && ProgressesOk(c)
    requires job in c.base.queue && c.base.queue[job].kind.FinalizeCatalog?
    requires SameJob(c.base.queue[job], row) && row.status != Running
    requires d.base.queue == c.base.queue[job := row] && d.base.claims == c.base.claims
    requires d.base.catalog == c.base.catalog[c.base.queue[job].paymentQuote.value := state]
    requires d.plans == c.plans && d.jobOf == c.jobOf && d.progress == c.progress
    requires match state
      case Complete => row.status != Failed
      case Approved => row.status == Queued
      case CatalogApprovalRequired => row.status == Failed
      case CatalogRecoveryRequired => row.status == Failed
      case _ => false
    ensures StatesOk(d) && JobsOk(d) && ProgressesOk(d)
  {
    assert JobOk(c, job);
    var q := c.base.queue[job].paymentQuote.value;
    assert StateOk(c.base, c.jobOf, q, c.base.catalog[q]);
    OneStateChanged(c, d, q, state);
    OthersProgress(c, d, q);
    hide StatesOk, JobsOk, ST.ClaimsOk;
    forall claim | claim in d.progress ensures ProgressOk(d, claim) {
      assert ProgressOk(c, claim);
    }
  }

  lemma {:induction false} SucceedKeepsAll(c: Catalog, claim: Claim)
    requires Inv(c)
    ensures Inv(Moved(c, SucceedFinal(claim)))
  {
    hide Apply, StatesOk, JobsOk, Fenced, PublishedOk;
    var d := Moved(c, SucceedFinal(claim));
    if d != c {
      SamePublished(c, d);
      assert ST.ClaimsOk(c.base) && ProgressOk(c, claim);
      ST.StepKeeps(c.base, SucceedJob(claim));
      hide ST.Inv, ProgressesOk;
      SucceededBy(c.base, SucceedJob(claim).claim);
      if d.base != c.base {
        OwnedIsCurrent(c.base, claim);
        assert c.base.catalog[c.base.queue[claim.id].paymentQuote.value := Complete] == c.base.catalog;
        EndedOk(c, d, claim.id, d.base.queue[claim.id], Complete);
      }
    }
  }

  lemma OwnedIsCurrent(s: Services, claim: Claim)
    requires ST.ClaimsOk(s) && Fenced(s, claim)
    ensures Current(s, claim) && s.queue[claim.id].kind == claim.kind
  {
  }

  lemma {:induction false} ResumeKeeps(c: Catalog, quote: string)
    requires Inv(c)
    ensures Inv(Moved(c, Resume(quote)))
  {
    hide Apply, StatesOk, JobsOk, ProgressesOk, Conflicts, IsLatestPaused;
    var d := Moved(c, Resume(quote));
    if d != c {
      assert ST.ClaimsOk(c.base);
      var job := c.jobOf[quote];
      var first := Base(c, RequeueJob(job));
      var write := WriteCatalog(c.base.catalog[quote := Approved]);
      Requeued(c.base, job);
      ST.StepKeeps(c.base, RequeueJob(job));
      CatalogWriters(first.base, write);
      ST.StepKeeps(first.base, write);
      hide ST.Inv, ST.ClaimsOk;
      PausedJob(c, quote);
      EndedOk(c, d, job, d.base.queue[job], Approved);
    }
  }

  lemma PausedJob(c: Catalog, quote: string)
    requires StatesOk(c) && JobsOk(c) && IsLatestPaused(c, quote)
    ensures JobIs(c.base, c.jobOf, quote) && c.base.queue[c.jobOf[quote]].status == Failed
    ensures c.base.queue[c.jobOf[quote]].video.None?
  {
    assert StateOk(c.base, c.jobOf, quote, c.base.catalog[quote]);
    assert JobOk(c, c.jobOf[quote]);
  }

  // -- The failure step --

  // The approval a failure writes: that of the finalization job it fails.
  function FailedQuote(s: Services): Option<string> {
    if s.open.Some? && s.open.value.claim.id in s.queue && s.open.value.claim.kind.FinalizeCatalog?
    then s.queue[s.open.value.claim.id].paymentQuote else None
  }

  lemma FailedQuoteOk(c: Catalog)
    requires ST.OpenOk(c.base) && ST.ClaimsOk(c.base) && StatesOk(c) && JobsOk(c)
    requires c.base.open.Some? && c.base.open.value.claim.kind.FinalizeCatalog?
    ensures var q := FailedQuote(c.base);
      && q.Some? && q.value in c.base.catalog
      && c.base.catalog[q.value] in {Approved, InUpload, Complete}
      && c.base.open.value.claim.video.None?
  {
    var o := c.base.open.value;
    assert JobOk(c, o.claim.id);
    var q := c.base.queue[o.claim.id].paymentQuote.value;
    assert StateOk(c.base, c.jobOf, q, c.base.catalog[q]);
  }

  lemma FailedCatalog(c: Catalog)
    requires ST.OpenOk(c.base) && ST.ClaimsOk(c.base) && StatesOk(c) && JobsOk(c)
    ensures var t := Apply(c.base, FailCommit);
      t.catalog == if FailedQuote(c.base).Some?
                   then c.base.catalog[FailedQuote(c.base).value := CatalogStateAfter(c.base.open.value)] else c.base.catalog
  {
    hide Apply, CatalogStateAfter, StatesOk, JobsOk, VideosAfter, ST.ClaimsOk;
    CommittedBy(c.base);
    if FailedQuote(c.base).Some? {
      FailedQuoteOk(c);
    }
  }

  lemma {:induction false} FailKeeps(c: Catalog)
    requires Inv(c)
    ensures Inv(Base(c, FailCommit))
  {
    hide Apply, StatesOk, JobsOk, ProgressesOk, CatalogStateAfter;
    var d := Base(c, FailCommit);
    assert ST.ClaimsOk(c.base) && ST.OpenOk(c.base);
    ST.StepKeeps(c.base, FailCommit);
    hide ST.Inv;
    CommittedBy(c.base);
    if c.base.open.Some? {
      var o := c.base.open.value;
      OpenKind(c.base);
      if o.claim.kind.FinalizeCatalog? {
        FailedQuoteOk(c);
        StateAfterFails(o);
        EndedOk(c, d, o.claim.id, Released(c.base.queue[o.claim.id], Failed), CatalogStateAfter(o));
      } else {
        ReplacedKeeps(c.base.queue, o.claim.id, Released(c.base.queue[o.claim.id], Failed));
        OpenMoves(c.base);
        QuietKeeps(c, d.base);
      }
    }
  }

  lemma StateAfterFails(o: OpenFailure)
    ensures CatalogStateAfter(o) in {CatalogApprovalRequired, CatalogRecoveryRequired}
  {
  }

  lemma OpenKind(s: Services)
    requires ST.OpenOk(s) && ST.ClaimsOk(s) && s.open.Some?
    ensures s.queue[s.open.value.claim.id].kind == s.open.value.claim.kind
  {
  }

  lemma OpenMoves(s: Services)
    requires ST.OpenOk(s) && s.open.Some?
    requires Valid(s.queue, s.clock, s.lease)
    ensures Moves(s.queue, DoFailCommit(s, s.open.value).queue, s.clock, s.lease)
  {
    var id := s.open.value.claim.id;
    ReleaseMoves(s.queue, s.clock, s.lease, id, Failed, s.queue[id].runAfter, s.queue[id].maxAttempts);
  }

  lemma {:induction false} StepKeeps(c: Catalog, e: CatalogStep)
    requires Inv(c)
    ensures Inv(Moved(c, e))
  {
    hide Apply, Inv, CanPrepare, CanApprove, CanStart, CanComplete, CanPublish, CanResume, DoRead;
    match e {
      case Other(step) =>
        if Ordinary(c, step) {
          if step.FailCommit? { FailKeeps(c); } else { OrdinaryKeeps(c, step); }
        }
      case Bump => BumpKeeps(c);
      case Prepare(author, plan) => PrepareKeeps(c, author, plan);
      case ApproveQuote(quote, storage, gas, accepted, job, max) => ApproveKeeps(c, quote, storage, gas, accepted, job, max);
      case ReadStatus(claim) => ReadKeeps(c, claim);
      case StartUpload(_) => WorkKeeps(c, e);
      case CompleteUpload(_) => WorkKeeps(c, e);
      case SucceedFinal(claim) => SucceedKeepsAll(c, claim);
      case PublishVideo(claim, plan) => PublishKeeps(c, claim, plan);
      case Refresh => RefreshKeeps(c);
      case RestoreFile => RestoreKeeps(c);
      case Resume(quote) => ResumeKeeps(c, quote);
    }
  }

  lemma {:induction false} PublishKeeps(c: Catalog, claim: Claim, plan: Plan)
    requires Inv(c)
    ensures Inv(Moved(c, PublishVideo(claim, plan)))
  {
    hide Apply, StatesOk, JobsOk, ProgressesOk, ST.Inv, Fenced, PublishedOk;
    if CanPublish(c, claim, plan) {
      OrdinaryKeeps(c, FencedWrite(claim));
      var first := Base(c, FencedWrite(claim));
      OrdinaryKeeps(first, ReadyVideo(c, claim));
      var second := Base(first, ReadyVideo(c, claim));
      var d := Moved(c, PublishVideo(claim, plan));
      assert d == second.(snapshot := d.snapshot, published := d.published, revision := d.revision);
      SameTables(second, d);
      SameProgress(second, d);
      Committed(c, d, d.snapshot.value);
    }
  }

  lemma RefreshKeeps(c: Catalog)
    requires Inv(c)
    ensures Inv(Moved(c, Refresh))
  {
    hide ST.Inv, StatesOk, JobsOk, ProgressesOk, PublishedOk;
    var d := Moved(c, Refresh);
    SameTables(c, d);
    SameProgress(c, d);
    if d != c {
      Committed(c, d, Refreshed(c.revision, c.snapshot));
    }
  }

  lemma SamePublished(c: Catalog, d: Catalog)
    requires d.revision == c.revision && d.published == c.published && d.snapshot == c.snapshot && d.file == c.file
    ensures PublishedOk(c) ==> PublishedOk(d)
  {
  }

  lemma SameProgress(c: Catalog, d: Catalog)
    requires d.base == c.base && d.progress == c.progress
    ensures ProgressesOk(c) ==> ProgressesOk(d)
  {
    if ProgressesOk(c) {
      forall claim | claim in d.progress ensures ProgressOk(d, claim) {
        assert ProgressOk(c, claim);
      }
    }
  }

  lemma RestoreKeeps(c: Catalog)
    requires Inv(c)
    ensures Inv(Moved(c, RestoreFile))
  {
    hide ST.Inv, StatesOk, JobsOk, ProgressesOk, PublishedOk;
    var d := Moved(c, RestoreFile);
    SameTables(c, d);
    SameProgress(c, d);
    FilePublished(c);
  }

  lemma FilePublished(c: Catalog)
    ensures PublishedOk(c) && c.snapshot.Some? ==> PublishedOk(c.(file := c.snapshot))
  {
    hide AddressesOk;
  }

  lemma BumpKeeps(c: Catalog)
    requires Inv(c)
    ensures Inv(c.(revision := c.revision + 1))
  {
    hide ST.Inv, StatesOk, JobsOk, ProgressesOk, AddressesOk;
    SameTables(c, c.(revision := c.revision + 1));
    BumpProgress(c);
  }

  lemma BumpProgress(c: Catalog)
    requires ProgressesOk(c)
    ensures ProgressesOk(c.(revision := c.revision + 1))
  {
    var d := c.(revision := c.revision + 1);
    forall claim | claim in d.progress ensures ProgressOk(d, claim) {
      assert ProgressOk(c, claim);
    }
  }

  lemma {:induction false} RunKeeps(c: Catalog, steps: seq<CatalogStep>)
    requires Inv(c)
    ensures Inv(Runs(c, steps))
  {
    hide Inv, Moved;
    if |steps| > 0 {
      RunKeeps(c, steps[..|steps| - 1]);
      StepKeeps(Runs(c, steps[..|steps| - 1]), steps[|steps| - 1]);
    }
  }

  // -- Exclusion --

  ghost predicate Exclusive(approvals: map<string, CatalogState>) {
    forall q, r :: q in approvals && r in approvals && Active(approvals[q]) && Active(approvals[r]) ==> q == r
  }

  ghost predicate OtherActive(approvals: map<string, CatalogState>, quote: string) {
    exists r :: r in approvals && r != quote && Active(approvals[r])
  }

  // The failure is committed for a job whose approval is already complete, it writes
  // `payment_recovery_required` over it, and another approval is under way.
  ghost predicate LateFailure(c: Catalog, e: CatalogStep) {
    && e == Other(FailCommit)
    && FailedQuote(c.base).Some? && FailedQuote(c.base).value in c.base.catalog
    && c.base.catalog[FailedQuote(c.base).value] == Complete
    && CatalogStateAfter(c.base.open.value) == CatalogRecoveryRequired
    && OtherActive(c.base.catalog, FailedQuote(c.base).value)
  }

  lemma ReplacedExclusive(approvals: map<string, CatalogState>, q: string, state: CatalogState)
    requires Exclusive(approvals) && q in approvals
    ensures Exclusive(approvals[q := state]) <==> !(Active(state) && OtherActive(approvals, q))
  {
    var after := approvals[q := state];
    if Active(state) && OtherActive(approvals, q) {
      var r :| r in approvals && r != q && Active(approvals[r]);
      assert r in after && Active(after[r]) && Active(after[q]);
    }
  }

  lemma ActiveExclusive(approvals: map<string, CatalogState>, q: string, state: CatalogState)
    requires Exclusive(approvals) && q in approvals && Active(approvals[q])
    ensures Exclusive(approvals[q := state])
  {
    ReplacedExclusive(approvals, q, state);
  }

  lemma DraftedExclusive(approvals: map<string, CatalogState>, quote: string)
    requires Reconciled(approvals)
    ensures Exclusive(Drafted(approvals, quote))
  {
  }

  lemma FailExclusive(c: Catalog)
    requires Inv(c) && Exclusive(c.base.catalog)
    ensures Exclusive(Base(c, FailCommit).base.catalog) <==> !LateFailure(c, Other(FailCommit))
  {
    hide Apply, CatalogStateAfter, StatesOk, JobsOk, ProgressesOk, Exclusive, OtherActive;
    assert ST.ClaimsOk(c.base) && ST.OpenOk(c.base);
    hide ST.Inv, ST.ClaimsOk;
    FailedCatalog(c);
    var q := FailedQuote(c.base);
    if q.Some? {
      FailedQuoteOk(c);
      StateAfterFails(c.base.open.value);
      ReplacedExclusive(c.base.catalog, q.value, CatalogStateAfter(c.base.open.value));
      NoOther(c.base.catalog, q.value);
    }
  }

  lemma NoOther(approvals: map<string, CatalogState>, q: string)
    requires Exclusive(approvals) && q in approvals
    ensures Active(approvals[q]) ==> !OtherActive(approvals, q)
  {
  }

  // The approval a claim is at work on is active until it ends.
  lemma WorkActive(c: Catalog, claim: Claim)
    requires Inv(c)
    ensures HasPlan(c, claim) && Fenced(c.base, claim) && (At(c, claim, Cleared) || At(c, claim, Started)) ==>
      Active(c.base.catalog[QuoteFor(c, claim).value])
  {
    assert ST.ClaimsOk(c.base);
    hide ST.Inv, StatesOk, JobsOk;
    if claim in c.progress {
      assert ProgressOk(c, claim);
    }
  }

  // Exactly one step can leave two approvals in draft, approved, uploading or
  // payment_recovery_required: a late failure.
  lemma {:induction false} StepExclusive(c: Catalog, e: CatalogStep)
    requires Inv(c) && Exclusive(c.base.catalog)
    ensures Exclusive(Moved(c, e).base.catalog) <==> !LateFailure(c, e)
  {
    hide Inv, Apply, Exclusive, OtherActive, Reconciled, Drafted, Conflicts, CatalogStateAfter, DoRead;
    match e {
      case Other(step) =>
        if step.FailCommit? { FailExclusive(c); } else { CatalogWriters(c.base, step); }
      case Bump =>
      case Prepare(author, plan) =>
        CatalogWriters(c.base, WriteCatalog(Drafted(c.base.catalog, plan.quote)));
        if CanPrepare(c, author, plan) { DraftedExclusive(c.base.catalog, plan.quote); }
      case ReadStatus(claim) => ReadSame(c, claim);
      case SucceedFinal(claim) => CatalogWriters(c.base, SucceedJob(claim));
      case ApproveQuote(quote, _, _, _, job, max) => ApproveExclusive(c, e);
      case Resume(quote) => ResumeExclusive(c, quote);
      case PublishVideo(claim, plan) =>
        if CanPublish(c, claim, plan) {
          CatalogWriters(c.base, FencedWrite(claim));
          CatalogWriters(Apply(c.base, FencedWrite(claim)), ReadyVideo(c, claim));
        }
      case Refresh =>
      case RestoreFile =>
      case StartUpload(claim) => WorkExclusive(c, e);
      case CompleteUpload(claim) => WorkExclusive(c, e);
    }
  }

  lemma ReadSame(c: Catalog, claim: Claim)
    ensures DoRead(c, claim).base == c.base
  {
  }

  lemma ApproveExclusive(c: Catalog, e: CatalogStep)
    requires e.ApproveQuote? && Exclusive(c.base.catalog)
    ensures Exclusive(Moved(c, e).base.catalog)
  {
    hide Apply, Exclusive, Conflicts;
    var write, enqueue := WriteCatalog(c.base.catalog[e.quote := Approved]), EnqueueJob(e.job, FinalizeCatalog, None, e.max, Some(e.quote));
    CatalogWriters(c.base, write);
    CatalogWriters(Apply(c.base, write), enqueue);
    if CanApprove(c, e.quote, e.maxStorageAtto, e.maxGasWei, e.accepted, e.job) {
      ActiveExclusive(c.base.catalog, e.quote, Approved);
    }
  }

  lemma ResumeExclusive(c: Catalog, quote: string)
    requires Exclusive(c.base.catalog)
    ensures Exclusive(Moved(c, Resume(quote)).base.catalog)
  {
    hide Apply, Exclusive, Conflicts;
    if CanResume(c, quote) {
      var requeue := RequeueJob(c.jobOf[quote]);
      CatalogWriters(c.base, requeue);
      Requeued(c.base, c.jobOf[quote]);
      CatalogWriters(Apply(c.base, requeue), WriteCatalog(c.base.catalog[quote := Approved]));
      ActiveExclusive(c.base.catalog, quote, Approved);
    }
  }

  lemma WorkExclusive(c: Catalog, e: CatalogStep)
    requires Inv(c) && Exclusive(c.base.catalog)
    requires e.StartUpload? || e.CompleteUpload?
    ensures Exclusive(Moved(c, e).base.catalog)
  {
    hide Inv, Apply, Exclusive, Fenced;
    var d, claim := Moved(c, e), e.claim;
    if d != c {
      var state := if e.StartUpload? then InUpload else Complete;
      CatalogWriters(c.base, WriteCatalog(c.base.catalog[QuoteFor(c, claim).value := state]));
      WorkActive(c, claim);
      ActiveExclusive(c.base.catalog, QuoteFor(c, claim).value, state);
    }
  }

  ghost predicate NoLateFailures(c: Catalog, steps: seq<CatalogStep>) {
    forall i :: 0 <= i < |steps| ==> !LateFailure(Runs(c, steps[..i]), steps[i])
  }

  // Over every run without one, a fresh quote never stands beside an active or uncertain payment.
  lemma {:induction false} RunExclusive(c: Catalog, steps: seq<CatalogStep>)
    requires Inv(c) && Exclusive(c.base.catalog)
    requires NoLateFailures(c, steps)
    ensures Exclusive(Runs(c, steps).base.catalog)
  {
    hide Inv, Moved, LateFailure, Exclusive;
    if |steps| > 0 {
      var front, last := steps[..|steps| - 1], steps[|steps| - 1];
      forall i | 0 <= i < |front| ensures !LateFailure(Runs(c, front[..i]), front[i]) {
        assert front[..i] == steps[..i];
      }
      RunExclusive(c, front);
      RunKeeps(c, front);
      assert steps[..|steps| - 1] == front;
      StepExclusive(Runs(c, front), last);
    }
  }

  // -- What was confirmed --

  ghost predicate ConfirmedAs(c: Catalog, q: string) {
    && q in c.plans && q in c.confirmed
    && c.confirmed[q] == Confirmation(c.plans[q].maxStorageAtto, c.plans[q].maxGasWei, c.plans[q].revision, true)
  }

  // A job pays for a plan as it was confirmed; no plan is of a revision still to come.
  ghost predicate ConfirmedOk(c: Catalog) {
    && (forall q :: q in c.jobOf ==> ConfirmedAs(c, q))
    && (forall q :: q in c.plans ==> c.plans[q].revision <= c.revision)
  }

  lemma PlanWriters(c: Catalog, e: CatalogStep)
    requires !e.ApproveQuote? && !e.Prepare?
    ensures var d := Moved(c, e); d.plans == c.plans && d.jobOf == c.jobOf && d.confirmed == c.confirmed && c.revision <= d.revision
  {
    hide Apply, CanStart, CanComplete, CanPublish, CanResume, HasPlan, Refreshed, Ordinary, Paid, ReadyVideo, QuoteFor;
  }

  lemma ApproveConfirms(c: Catalog, e: CatalogStep)
    requires e.ApproveQuote?
    ensures var d := Moved(c, e);
      d == c || (CanApprove(c, e.quote, e.maxStorageAtto, e.maxGasWei, e.accepted, e.job)
                 && d.plans == c.plans && d.revision == c.revision && d.jobOf == c.jobOf[e.quote := e.job]
                 && d.confirmed == c.confirmed[e.quote := Confirmation(e.maxStorageAtto, e.maxGasWei, c.revision, e.accepted)])
  {
    hide Apply, CanApprove;
  }

  lemma JobbedQuotes(c: Catalog)
    requires Inv(c)
    ensures forall q :: q in c.jobOf ==> q in c.base.catalog
  {
    hide ST.Inv, StatesOk, ProgressesOk, PublishedOk, JobOk;
  }

  lemma {:induction false} ConfirmedStep(c: Catalog, e: CatalogStep)
    requires Inv(c) && ConfirmedOk(c)
    ensures ConfirmedOk(Moved(c, e))
  {
    hide Inv, Moved, CanPrepare, CanApprove, ConfirmedOk, Drafted;
    JobbedQuotes(c);
    var d := Moved(c, e);
    ConfirmedStays(c, d);
    match e {
      case Prepare(author, plan) =>
        PrepareIs(c, author, plan);
        NewPlan(c, author, plan);
        if CanPrepare(c, author, plan) { PlanAdded(c, d, plan); }
      case ApproveQuote(quote, storage, gas, accepted, job, max) =>
        ApproveConfirms(c, e);
        ApprovedPlan(c, e);
        if CanApprove(c, quote, storage, gas, accepted, job) && d != c { ConfirmationAdded(c, d, quote, job); }
      case _ => PlanWriters(c, e);
    }
  }

  lemma ConfirmedStays(c: Catalog, d: Catalog)
    requires ConfirmedOk(c)
    ensures d.plans == c.plans && d.jobOf == c.jobOf && d.confirmed == c.confirmed && c.revision <= d.revision ==> ConfirmedOk(d)
  {
  }

  lemma PlanAdded(c: Catalog, d: Catalog, plan: Plan)
    requires ConfirmedOk(c) && plan.quote !in c.jobOf && plan.revision <= c.revision
    requires d.plans == c.plans[plan.quote := plan] && d.jobOf == c.jobOf && d.confirmed == c.confirmed && d.revision == c.revision
    ensures ConfirmedOk(d)
  {
  }

  lemma ConfirmationAdded(c: Catalog, d: Catalog, quote: string, job: string)
    requires ConfirmedOk(c) && quote in c.plans
    requires d.plans == c.plans && d.jobOf == c.jobOf[quote := job] && d.revision == c.revision
    requires d.confirmed == c.confirmed[
      quote := Confirmation(c.plans[quote].maxStorageAtto, c.plans[quote].maxGasWei, c.plans[quote].revision, true)]
    ensures ConfirmedOk(d)
  {
  }

  lemma NewPlan(c: Catalog, author: Option<Claim>, plan: Plan)
    ensures CanPrepare(c, author, plan) ==> plan.quote !in c.base.catalog && plan.revision == c.revision
  {
    hide Reconciled, Fenced;
  }

  lemma ApprovedPlan(c: Catalog, e: CatalogStep)
    requires e.ApproveQuote?
    ensures CanApprove(c, e.quote, e.maxStorageAtto, e.maxGasWei, e.accepted, e.job) ==>
      e.quote in c.plans && e.accepted
      && c.plans[e.quote].(maxStorageAtto := e.maxStorageAtto, maxGasWei := e.maxGasWei, revision := c.revision) == c.plans[e.quote]
  {
    hide Conflicts;
  }

  // Over every run: whatever is paid for, or was, is a plan whose own caps were confirmed, at the
  // revision it was quoted at, and which the gateway had accepted.
  lemma {:induction false} PaidAsConfirmed(c: Catalog, steps: seq<CatalogStep>, q: string)
    requires Inv(c) && ConfirmedOk(c)
    ensures var d := Runs(c, steps);
      && ConfirmedOk(d)
      && (q in d.base.catalog && d.base.catalog[q] !in {Draft, Replaced} ==> ConfirmedAs(d, q))
  {
    hide Inv, Moved, ConfirmedAs;
    if |steps| > 0 {
      var front := steps[..|steps| - 1];
      PaidAsConfirmed(c, front, q);
      RunKeeps(c, front);
      ConfirmedStep(Runs(c, front), steps[|steps| - 1]);
    }
    RunKeeps(c, steps);
    ApprovedHasJob(Runs(c, steps), q);
  }

  lemma ApprovedHasJob(c: Catalog, q: string)
    requires Inv(c)
    ensures q in c.base.catalog && c.base.catalog[q] !in {Draft, Replaced} ==> q in c.jobOf
  {
    hide ST.Inv, JobsOk, ProgressesOk, PublishedOk;
    assert q in c.base.catalog ==> StateOk(c.base, c.jobOf, q, c.base.catalog[q]);
  }

  // Other caps than the quote's own, a catalog that has changed since, or a gateway that declines, and
  // nothing happens.
  lemma {:induction false} OtherCapsRefused(c: Catalog, quote: string, storage: string, gas: string, accepted: bool, job: string, max: nat)
    requires quote in c.plans ==>
      storage != c.plans[quote].maxStorageAtto || gas != c.plans[quote].maxGasWei || c.plans[quote].revision != c.revision || !accepted
    ensures Moved(c, ApproveQuote(quote, storage, gas, accepted, job, max)) == c
  {
  }

  // A claim is cleared to pay only by reading its approval approved or uploading, at the revision it
  // was quoted at.
  lemma {:induction false} ClearedOnlyWhenCurrent(c: Catalog, e: CatalogStep, claim: Claim)
    requires Inv(c) && At(Moved(c, e), claim, Cleared) && !At(c, claim, Cleared)
    ensures e == ReadStatus(claim) && HasPlan(c, claim)
    ensures c.base.catalog[QuoteFor(c, claim).value] in {Approved, InUpload} && c.plans[QuoteFor(c, claim).value].revision == c.revision
  {
    hide Inv, Apply, Conflicts, Reconciled, Drafted, Fenced, IsLatestPaused;
  }

  // -- A paused publication can always go on --

  ghost predicate Resumed(c: Catalog, d: Catalog, quote: string) {
    && quote in d.base.catalog && d.base.catalog[quote] == Approved
    && d.jobOf == c.jobOf && JobIs(d.base, d.jobOf, quote)
    && d.base.queue[d.jobOf[quote]].status == Queued
    && d.base.queue[d.jobOf[quote]].attempts < d.base.queue[d.jobOf[quote]].maxAttempts
  }

  // Whenever an approval is in payment_recovery_required and nothing else of the catalog is under
  // way, `resume` finds its original job and queues it again under the same approval.
  lemma {:induction false} PausedCanResume(c: Catalog, quote: string)
    requires Inv(c) && c.base.open.None?
    requires quote in c.base.catalog && c.base.catalog[quote] == CatalogRecoveryRequired
    requires Exclusive(c.base.catalog)
    requires forall id :: id in c.base.queue && c.base.queue[id].kind.FinalizeCatalog? ==> !Live(c.base.queue[id])
    ensures Resumed(c, Moved(c, Resume(quote)), quote)
  {
    hide Apply, ProgressesOk, PublishedOk, ST.Inv;
    assert StateOk(c.base, c.jobOf, quote, CatalogRecoveryRequired) && JobOk(c, c.jobOf[quote]);
    hide Inv, StatesOk, JobsOk;
    var requeue := RequeueJob(c.jobOf[quote]);
    Requeued(c.base, c.jobOf[quote]);
    CatalogWriters(c.base, requeue);
    CatalogWriters(Apply(c.base, requeue), WriteCatalog(c.base.catalog[quote := Approved]));
  }

  // -- What is published --

  // The last transaction of a video's upload: while the claim owns its job and the catalog is the one
  // the plan was quoted from, the video is ready, its catalog is the published one and a new revision
  // begins; otherwise nothing happens.
  lemma {:induction false} VideoIsPublished(c: Catalog, claim: Claim, plan: Plan)
    requires c.base.open.None? && claim.kind.UploadVideo? && claim.video.Some? && claim.video.value in c.base.videos
    ensures var d, video := Moved(c, PublishVideo(claim, plan)), claim.video.value;
      if Fenced(c.base, claim) && plan.revision == c.revision then
        && video in d.base.videos && d.base.videos[video] == c.base.videos[video].(status := Ready)
        && d.base.catalog == c.base.catalog && d.base.queue == c.base.queue
        && d.snapshot == Some(Snapshot(plan.revision, Some(video), Stored(plan.quote, plan.revision, Some(video)), false))
        && d.published == c.published + [d.snapshot.value] && d.revision == c.revision + 1 && d.file == c.file
      else d == c
  {
    hide Owns;
    if Fenced(c.base, claim) {
      Written(c.base, claim, claim.video.value, c.base.videos[claim.video.value].(status := Ready));
    }
  }

  lemma Written(s: Services, claim: Claim, video: string, row: VideoRow)
    requires s.open.None? && Fenced(s, claim)
    ensures var t := Apply(Apply(s, FencedWrite(claim)), WriteVideo(video, row));
      t.videos == s.videos[video := row] && t.catalog == s.catalog && t.queue == s.queue
  {
    hide Owns;
  }

  ghost predicate NotBehind(a: Addresses, b: Addresses) {
    a.Stored? ==> b.Stored? && a.revision <= b.revision
  }

  lemma PaidRow(rows: seq<Snapshot>, i: nat) returns (k: nat)
    requires i < |rows| && NamesLastPaid(rows, i) && rows[i].addresses.Stored?
    ensures k <= i && NamedBy(rows, k, i)
  {
    k :| 0 <= k <= i && NamedBy(rows, k, i);
  }

  // Later rows name later documents.
  lemma AddressesInOrder(c: Catalog, i: nat, j: nat)
    requires PublishedOk(c) && i <= j < |c.published|
    ensures NotBehind(c.published[i].addresses, c.published[j].addresses)
  {
    hide NamedBy, NamesLastPaid;
    var rows := c.published;
    assert OwnAddresses(rows[i]) && NamesLastPaid(rows, i) && NamesLastPaid(rows, j);
    if rows[i].addresses.Stored? {
      var k := PaidRow(rows, i);
      assert OwnAddresses(rows[k]);
      PaidStays(rows, k, i, j);
      var m := PaidRow(rows, j);
      NamedLater(rows, k, i, m, j);
      assert OwnAddresses(rows[m]);
      assert k < m ==> OlderThan(rows[k], rows[m].revision);
    }
  }

  lemma PaidStays(rows: seq<Snapshot>, k: nat, i: nat, j: nat)
    requires k <= i <= j < |rows| && NamedBy(rows, k, i) && NamesLastPaid(rows, j)
    requires forall m :: 0 <= m < |rows| ==> OwnAddresses(rows[m])
    ensures rows[j].addresses.Stored?
  {
    if m :| 0 <= m <= j && NamedBy(rows, m, j) {
      assert OwnAddresses(rows[m]);
    }
  }

  lemma NamedLater(rows: seq<Snapshot>, k: nat, i: nat, m: nat, j: nat)
    requires k <= i <= j < |rows| && m <= j && NamedBy(rows, k, i) && NamedBy(rows, m, j)
    ensures k <= m && !rows[k].pending && !rows[m].pending
    ensures rows[i].addresses == rows[k].addresses && rows[j].addresses == rows[m].addresses
  {
  }

  ghost predicate LaterFile(c: Catalog, d: Catalog) {
    && |c.published| <= |d.published| && d.published[..|c.published|] == c.published
    && (c.file.Some? ==> d.file.Some? && c.file.value.revision <= d.file.value.revision
                         && NotBehind(c.file.value.addresses, d.file.value.addresses))
  }

  lemma {:induction false} FileStep(c: Catalog, e: CatalogStep)
    requires Inv(c)
    ensures LaterFile(c, Moved(c, e))
  {
    hide StatesOk, JobsOk, ProgressesOk, PublishedOk, NotBehind, ST.Inv, Apply, Drafted, Conflicts;
    if c.file.Some? {
      FileNotAhead(c);
      NotBehindItself(c.file.value.addresses);
    }
  }

  lemma NotBehindItself(a: Addresses)
    ensures NotBehind(a, a)
  {
  }

  // The row a restore would write is not behind the file.
  lemma FileNotAhead(c: Catalog)
    requires PublishedOk(c) && c.file.Some?
    ensures c.snapshot.Some? && c.file.value.revision <= c.snapshot.value.revision
    ensures NotBehind(c.file.value.addresses, c.snapshot.value.addresses)
  {
    hide AddressesOk, NotBehind;
    var last := |c.published| - 1;
    var i :| 0 <= i <= last && c.published[i] == c.file.value;
    assert i < last ==> OlderThan(c.published[i], c.published[last].revision);
    AddressesInOrder(c, i, last);
  }

  // The file the streaming service reads is always a committed snapshot, and over any run, whoever
  // restores it and whenever, it never goes back to an older catalog or to older addresses.
  lemma {:induction false} FileNeverGoesBack(c: Catalog, steps: seq<CatalogStep>)
    requires Inv(c)
    ensures var d := Runs(c, steps);
      && (d.file.Some? ==> d.file.value in d.published)
      && (c.file.Some? ==> d.file.Some? && c.file.value.revision <= d.file.value.revision
                           && NotBehind(c.file.value.addresses, d.file.value.addresses))
  {
    hide StatesOk, JobsOk, ProgressesOk, ST.Inv, Moved, OlderThan, AddressesOk;
    RunKeeps(c, steps);
    if |steps| > 0 {
      var front := steps[..|steps| - 1];
      FileNeverGoesBack(c, front);
      RunKeeps(c, front);
      FileStep(Runs(c, front), steps[|steps| - 1]);
    }
  }

  // Snapshots commit in the order of the catalogs their documents were built from, and once a video
  // is published no catalog quoted before it is: a stale catalog cannot drop the new video.
  lemma {:induction false} PublishedInOrder(c: Catalog, steps: seq<CatalogStep>, i: nat, j: nat)
    requires Inv(c)
    requires i < j < |Runs(c, steps).published|
    ensures var d := Runs(c, steps);
      && d.published[i].revision <= d.published[j].revision <= d.revision
      && (d.published[i].withVideo.Some? ==> d.published[i].revision < d.published[j].revision)
  {
    hide StatesOk, JobsOk, ProgressesOk, ST.Inv, AddressesOk;
    RunKeeps(c, steps);
    var d := Runs(c, steps);
    assert OlderThan(d.published[i], d.published[j].revision) && OlderThan(d.published[j], d.revision);
  }

  // However often the documents are refreshed and however far the file lags behind, the addresses in
  // every committed row are those of the documents last stored and paid for before it, and never name
  // a catalog newer than the documents beside them.
  lemma {:induction false} AddressesAreLastPaid(c: Catalog, steps: seq<CatalogStep>, i: nat)
    requires Inv(c)
    requires i < |Runs(c, steps).published|
    ensures var rows := Runs(c, steps).published;
      && OwnAddresses(rows[i])
      && NamesLastPaid(rows, i)
      && (rows[i].addresses.Stored? ==> rows[i].addresses.revision <= rows[i].revision)
      && (rows[i].pending && rows[i].addresses.Stored? && rows[i].addresses.withVideo.Some? ==>
            rows[i].addresses.revision < rows[i].revision)
  {
    hide StatesOk, JobsOk, ProgressesOk, PublishedOk, ST.Inv, Runs, NamesLastPaid;
    RunKeeps(c, steps);
    NeverAhead(Runs(c, steps), i);
  }

  lemma NeverAhead(c: Catalog, i: nat)
    requires PublishedOk(c) && i < |c.published|
    ensures var row := c.published[i];
      && OwnAddresses(row) && NamesLastPaid(c.published, i)
      && (row.addresses.Stored? ==> row.addresses.revision <= row.revision)
      && (row.pending && row.addresses.Stored? && row.addresses.withVideo.Some? ==> row.addresses.revision < row.revision)
  {
    hide NamesLastPaid, NamedBy;
    var rows := c.published;
    assert OwnAddresses(rows[i]) && NamesLastPaid(rows, i);
    if rows[i].addresses.Stored? {
      var k := PaidRow(rows, i);
      NamedLater(rows, k, i, k, i);
      assert OwnAddresses(rows[k]);
      assert k < i ==> OlderThan(rows[k], rows[i].revision);
    }
  }

  // -- Who fails late --

  // A complete approval was completed by a claim of its job, and a failure under way is not reported
  // by a claim whose `finalize` has returned.
  ghost predicate CompletedBy(c: Catalog, q: string) {
    exists claim :: At(c, claim, Ended) && q in c.jobOf && claim.id == c.jobOf[q]
  }

  ghost predicate EndsOk(c: Catalog) {
    && (forall q :: q in c.base.catalog && c.base.catalog[q] == Complete ==> CompletedBy(c, q))
    && (c.base.open.Some? ==> !At(c, c.base.open.value.claim, Ended))
  }

  // Only `mark_job_failed` opens a failure.
  lemma OpenWriters(s: Services, step: Step)
    ensures var t := Apply(s, step);
      t.open.Some? ==>
        || (s.open.Some? && t.open.value.claim == s.open.value.claim)
        || (s.open.None? && step.FailBegin? && t.open.value.claim == step.claim)
  {
    hide Cancelled, GateAfter, Owns, Acquire, Renew, Succeed, RetryLater, Interrupt, Recover, Requeue, Enqueue, IsNext;
  }

  // `q` was complete before, under the same job.
  ghost predicate WasComplete(c: Catalog, d: Catalog, q: string) {
    && q in c.base.catalog && c.base.catalog[q] == Complete
    && (q in c.jobOf ==> q in d.jobOf && d.jobOf[q] == c.jobOf[q])
  }

  lemma EndsStay(c: Catalog, d: Catalog)
    requires EndsOk(c)
    requires forall claim :: At(c, claim, Ended) ==> At(d, claim, Ended)
    requires forall q :: q in d.base.catalog && d.base.catalog[q] == Complete ==> WasComplete(c, d, q) || CompletedBy(d, q)
    requires d.base.open.Some? ==> !At(d, d.base.open.value.claim, Ended)
    ensures EndsOk(d)
  {
    forall q | q in d.base.catalog && d.base.catalog[q] == Complete ensures CompletedBy(d, q) {
      if WasComplete(c, d, q) {
        var claim :| At(c, claim, Ended) && q in c.jobOf && claim.id == c.jobOf[q];
        assert At(d, claim, Ended);
      }
    }
  }

  lemma OtherEnds(c: Catalog, step: Step)
    requires Inv(c) && EndsOk(c)
    ensures EndsOk(Moved(c, Other(step)))
  {
    hide Apply, CatalogStateAfter, StatesOk, JobsOk, ProgressesOk, PublishedOk, ST.ClaimsOk;
    var d := Moved(c, Other(step));
    assert ST.ClaimsOk(c.base) && ST.OpenOk(c.base);
    hide ST.Inv;
    OpenWriters(c.base, step);
    CatalogWriters(c.base, step);
    if step.FailCommit? {
      FailedCatalog(c);
      if c.base.open.Some? { StateAfterFails(c.base.open.value); }
    }
    EndsStay(c, d);
  }

  lemma QuoteEnds(c: Catalog, e: CatalogStep)
    requires EndsOk(c)
    requires e.Prepare? || e.ApproveQuote? || e.Resume?
    ensures EndsOk(Moved(c, e))
  {
    hide Apply, Conflicts, Reconciled, Fenced, IsLatestPaused;
    var d := Moved(c, e);
    if e.Prepare? {
      CatalogWriters(c.base, WriteCatalog(Drafted(c.base.catalog, e.plan.quote)));
    } else if e.ApproveQuote? {
      var write := WriteCatalog(c.base.catalog[e.quote := Approved]);
      CatalogWriters(c.base, write);
      if CanApprove(c, e.quote, e.maxStorageAtto, e.maxGasWei, e.accepted, e.job) {
        Enqueued(Apply(c.base, write), e.job, e.max, e.quote);
      }
    } else if CanResume(c, e.quote) {
      Requeued(c.base, c.jobOf[e.quote]);
      CatalogWriters(Apply(c.base, RequeueJob(c.jobOf[e.quote])), WriteCatalog(c.base.catalog[e.quote := Approved]));
    }
    EndsStay(c, d);
  }

  lemma WorkEnds(c: Catalog, e: CatalogStep)
    requires Inv(c) && EndsOk(c)
    requires e.StartUpload? || e.CompleteUpload?
    ensures EndsOk(Moved(c, e))
  {
    hide Apply, Fenced, StatesOk, ProgressesOk, PublishedOk;
    var d, claim := Moved(c, e), e.claim;
    if d != c {
      var q := QuoteFor(c, claim).value;
      assert ST.ClaimsOk(c.base) && JobOk(c, claim.id);
      ClaimKind(c.base, claim);
      hide JobsOk, ST.ClaimsOk;
      CatalogWriters(c.base, WriteCatalog(c.base.catalog[q := if e.StartUpload? then InUpload else Complete]));
      assert e.CompleteUpload? ==> At(d, claim, Ended) && CompletedBy(d, q);
      EndsStay(c, d);
    }
  }

  lemma VideoEnds(c: Catalog, claim: Claim, plan: Plan)
    requires EndsOk(c)
    ensures EndsOk(Moved(c, PublishVideo(claim, plan)))
  {
    hide Apply, Fenced;
    if CanPublish(c, claim, plan) {
      CatalogWriters(c.base, FencedWrite(claim));
      OpenWriters(c.base, FencedWrite(claim));
      var first := Apply(c.base, FencedWrite(claim));
      CatalogWriters(first, ReadyVideo(c, claim));
      OpenWriters(first, ReadyVideo(c, claim));
    }
    EndsStay(c, Moved(c, PublishVideo(claim, plan)));
  }

  lemma {:induction false} StepEnds(c: Catalog, e: CatalogStep)
    requires Inv(c) && EndsOk(c)
    ensures EndsOk(Moved(c, e))
  {
    hide Inv, Moved, EndsOk;
    match e {
      case Other(step) => OtherEnds(c, step);
      case Prepare(_, _) => QuoteEnds(c, e);
      case ApproveQuote(_, _, _, _, _, _) => QuoteEnds(c, e);
      case Resume(_) => QuoteEnds(c, e);
      case StartUpload(_) => WorkEnds(c, e);
      case CompleteUpload(_) => WorkEnds(c, e);
      case PublishVideo(claim, plan) => VideoEnds(c, claim, plan);
      case _ => QuietEnds(c, e);
    }
  }

  lemma QuietEnds(c: Catalog, e: CatalogStep)
    requires EndsOk(c)
    requires e.SucceedFinal? || e.Bump? || e.ReadStatus? || e.Refresh? || e.RestoreFile?
    ensures EndsOk(Moved(c, e))
  {
    hide Apply, HasPlan;
    if e.SucceedFinal? {
      CatalogWriters(c.base, SucceedJob(e.claim));
      OpenWriters(c.base, SucceedJob(e.claim));
    }
    EndsStay(c, Moved(c, e));
  }

  lemma {:induction false} RunEnds(c: Catalog, steps: seq<CatalogStep>)
    requires Inv(c) && EndsOk(c)
    ensures Inv(Runs(c, steps)) && EndsOk(Runs(c, steps))
  {
    hide Inv, Moved, EndsOk;
    RunKeeps(c, steps);
    if |steps| > 0 {
      RunEnds(c, steps[..|steps| - 1]);
      StepEnds(Runs(c, steps[..|steps| - 1]), steps[|steps| - 1]);
    }
  }

  // `claim` follows one that completed the approval of the same job, and has not read it.
  ghost predicate AfterCompletion(c: Catalog, claim: Claim) {
    && claim !in c.progress
    && exists earlier :: At(c, earlier, Ended) && earlier in c.base.claims && earlier.id == claim.id && earlier.attempts < claim.attempts
  }

  // A late failure is never that of the claim which completed the approval: it takes a job that
  // was completed but not marked succeeded, was claimed again, and failed before the new claim had
  // looked at the approval.
  lemma {:induction false} LateFailureIsReclaimed(c: Catalog, steps: seq<CatalogStep>, e: CatalogStep)
    requires Inv(c) && EndsOk(c)
    requires LateFailure(Runs(c, steps), e)
    ensures Runs(c, steps).base.open.Some? && AfterCompletion(Runs(c, steps), Runs(c, steps).base.open.value.claim)
  {
    hide Inv, EndsOk, LateFailure;
    RunEnds(c, steps);
    LateIsReclaimed(Runs(c, steps), e);
  }

  lemma PastRead(c: Catalog, claim: Claim)
    requires ProgressesOk(c)
    ensures claim in c.progress && Current(c.base, claim) && c.base.catalog[QuoteFor(c, claim).value] == Complete ==> At(c, claim, Ended)
  {
    assert claim in c.progress ==> ProgressOk(c, claim);
  }

  lemma LateIsReclaimed(c: Catalog, e: CatalogStep)
    requires Inv(c) && EndsOk(c) && LateFailure(c, e)
    ensures c.base.open.Some? && AfterCompletion(c, c.base.open.value.claim)
  {
    hide CatalogStateAfter, StatesOk, PublishedOk, OtherActive;
    assert ST.ClaimsOk(c.base) && ST.OpenOk(c.base);
    hide ST.Inv;
    var claim, q := c.base.open.value.claim, FailedQuote(c.base).value;
    assert JobOk(c, claim.id);
    var earlier :| At(c, earlier, Ended) && q in c.jobOf && earlier.id == c.jobOf[q];
    assert ProgressOk(c, earlier);
    PastRead(c, claim);
    if earlier.attempts == claim.attempts {
      OneCurrent(c.base, earlier, claim);
    }
  }

  // -- A late failure can happen --

  const WORKER: Claim := Claim("job", FinalizeCatalog, None, "worker", 1, 1)
  const LATER: Claim := Claim("job", FinalizeCatalog, None, "worker2", 2, 1)

  // A publication completes and its worker dies before it marks the job succeeded. A new quote is
  // drafted; then the lease runs out and the job is claimed again, since a claim does not look at
  // `max_attempts`. The new worker cannot activate its payment lease, which it does before it looks at
  // the approval, and an error on the last attempt is final.
  function LateRun(): seq<CatalogStep> {
    [Prepare(None, Plan("first", "1", "1", 0, 0)),
     ApproveQuote("first", "1", "1", true, "job", 1),
     Other(ClaimJob("job", "worker")),
     ReadStatus(WORKER),
     StartUpload(WORKER),
     CompleteUpload(WORKER),
     Prepare(None, Plan("second", "1", "1", 0, 1)),
     Other(Clock(60)),
     Other(ClaimJob("job", "worker2")),
     Other(FailBegin(LATER, false, false)),
     Other(FailCommit)]
  }

  function Fresh(): Catalog {
    Begin(Start("network", false, 0, 60), 0)
  }

  lemma RunsOn(c: Catalog, steps: seq<CatalogStep>, k: nat)
    requires k < |steps|
    ensures Runs(c, steps[..k + 1]) == Moved(Runs(c, steps[..k]), steps[k])
  {
    hide Moved;
    assert steps[..k + 1][..k] == steps[..k];
  }

  lemma Claimed(s: Services, id: string, worker: string)
    requires s.open.None? && IsNext(s.queue, s.clock, id)
    ensures Apply(s, ClaimJob(id, worker)) == DoClaim(s, id, worker).(gate := s.gate)
  {
    hide IsNext;
  }

  lemma Ticked(s: Services, to: int)
    requires s.clock < to
    ensures var t := Apply(s, Clock(to)); t == s.(clock := to, gate := t.gate)
  {
    hide GateAfter;
  }

  // Where the run is: the approvals, the row of the job, its claims, the time and their progress.
  ghost predicate Stage(d: Catalog, catalog: map<string, CatalogState>, row: JobRow, claims: seq<Claim>, clock: int,
                        progress: map<Claim, Progress>) {
    && d.base.catalog == catalog && d.progress == progress
    && d.base.queue == map["job" := row] && d.base.claims == claims
    && d.base.open.None? && d.base.clock == clock && d.base.lease == 60
    && "first" in d.plans && d.plans["first"].revision == 0 && d.revision == 0
  }

  // The job as it is when it is queued, claimed and claimed again.
  function LateRow(attempts: nat): JobRow {
    if attempts == 0 then JobRow(FinalizeCatalog, None, Queued, 0, 1, None, None, 0, 0, Some("first"))
    else if attempts == 1 then JobRow(FinalizeCatalog, None, Running, 1, 1, Some("worker"), Some(60), 0, 0, Some("first"))
    else JobRow(FinalizeCatalog, None, Running, 2, 1, Some("worker2"), Some(120), 0, 0, Some("first"))
  }

  lemma LateApproved()
    ensures Stage(Runs(Fresh(), LateRun()[..2]), map["first" := Approved], LateRow(0), [], 0, map[])
  {
    hide Apply;
    var c0 := Fresh();
    RunsOn(c0, LateRun(), 0);
    RunsOn(c0, LateRun(), 1);
    var c1 := Moved(c0, LateRun()[0]);
    assert LateRun()[..0] == [] && Runs(c0, LateRun()[..0]) == c0;
    CatalogWriters(c0.base, WriteCatalog(Drafted(c0.base.catalog, "first")));
    assert c1.base.catalog == map["first" := Draft];
    var write := WriteCatalog(c1.base.catalog["first" := Approved]);
    CatalogWriters(c1.base, write);
    Enqueued(Apply(c1.base, write), "job", 1, "first");
  }

  lemma LateClaimed(c: Catalog)
    requires Stage(c, map["first" := Approved], LateRow(0), [], 0, map[])
    ensures Stage(Moved(c, LateRun()[2]), map["first" := Approved], LateRow(1), [WORKER], 0, map[])
  {
    hide Apply;
    assert IsNext(c.base.queue, 0, "job");
    Claimed(c.base, "job", "worker");
  }

  lemma LateRead(c: Catalog)
    requires Stage(c, map["first" := Approved], LateRow(1), [WORKER], 0, map[])
    ensures Stage(Moved(c, ReadStatus(WORKER)), map["first" := Approved], LateRow(1), [WORKER], 0, map[WORKER := Cleared])
  {
    hide Apply;
  }

  lemma LateStarted(c: Catalog)
    requires Stage(c, map["first" := Approved], LateRow(1), [WORKER], 0, map[WORKER := Cleared])
    ensures Stage(Moved(c, StartUpload(WORKER)), map["first" := InUpload], LateRow(1), [WORKER], 0, map[WORKER := Started])
  {
    hide Apply;
    WorkIs(c, WORKER);
    hide Moved;
  }

  lemma LateEnded(c: Catalog)
    requires Stage(c, map["first" := InUpload], LateRow(1), [WORKER], 0, map[WORKER := Started])
    ensures Stage(Moved(c, CompleteUpload(WORKER)), map["first" := Complete], LateRow(1), [WORKER], 0, map[WORKER := Ended])
  {
    hide Apply;
    WorkIs(c, WORKER);
    hide Moved;
  }

  lemma LateDrafted(c: Catalog)
    requires Stage(c, map["first" := Complete], LateRow(1), [WORKER], 0, map[WORKER := Ended])
    ensures Stage(Moved(c, Prepare(None, Plan("second", "1", "1", 0, 1))), map["first" := Complete, "second" := Draft], LateRow(1), [WORKER], 0, map[WORKER := Ended])
  {
    hide Apply;
    PrepareIs(c, None, Plan("second", "1", "1", 0, 1));
    hide Moved;
  }

  lemma LateExpired(c: Catalog)
    requires Stage(c, map["first" := Complete, "second" := Draft], LateRow(1), [WORKER], 0, map[WORKER := Ended])
    ensures Stage(Moved(c, LateRun()[7]), map["first" := Complete, "second" := Draft], LateRow(1), [WORKER], 60, map[WORKER := Ended])
  {
    hide Apply;
    Ticked(c.base, 60);
  }

  lemma LateReclaimed(c: Catalog)
    requires Stage(c, map["first" := Complete, "second" := Draft], LateRow(1), [WORKER], 60, map[WORKER := Ended])
    ensures Stage(Moved(c, LateRun()[8]), map["first" := Complete, "second" := Draft], LateRow(2), [WORKER, LATER], 60, map[WORKER := Ended])
  {
    hide Apply;
    assert IsNext(c.base.queue, 60, "job");
    Claimed(c.base, "job", "worker2");
  }

  lemma LateBegun(c: Catalog)
    requires Stage(c, map["first" := Complete, "second" := Draft], LateRow(2), [WORKER, LATER], 60, map[WORKER := Ended])
    ensures var d := Moved(c, LateRun()[9]);
      d.base.catalog == map["first" := Complete, "second" := Draft] && LateFailure(d, LateRun()[10])
  {
    hide Apply;
    Failing(c.base);
    var d := Moved(c, LateRun()[9]);
    assert "second" in d.base.catalog && Active(d.base.catalog["second"]);
  }

  lemma Failing(s: Services)
    requires s.open.None? && Fenced(s, LATER)
    ensures Apply(s, FailBegin(LATER, false, false)) == DoFailBegin(s, LATER, false, false).(gate := s.gate)
  {
  }

  lemma LateCompleted()
    ensures Stage(Runs(Fresh(), LateRun()[..6]), map["first" := Complete], LateRow(1), [WORKER], 0, map[WORKER := Ended])
  {
    hide Moved, Runs, Stage;
    LateApproved();
    RunsOn(Fresh(), LateRun(), 2);
    LateClaimed(Runs(Fresh(), LateRun()[..2]));
    RunsOn(Fresh(), LateRun(), 3);
    LateRead(Runs(Fresh(), LateRun()[..3]));
    RunsOn(Fresh(), LateRun(), 4);
    LateStarted(Runs(Fresh(), LateRun()[..4]));
    RunsOn(Fresh(), LateRun(), 5);
    LateEnded(Runs(Fresh(), LateRun()[..5]));
  }

  lemma LateFailureHappens()
    ensures LateFailure(Runs(Fresh(), LateRun()[..10]), LateRun()[10])
    ensures Exclusive(Runs(Fresh(), LateRun()[..10]).base.catalog)
    ensures !Exclusive(Runs(Fresh(), LateRun()).base.catalog)
  {
    hide Moved, Runs, Stage, LateFailure, Exclusive;
    LateCompleted();
    RunsOn(Fresh(), LateRun(), 6);
    LateDrafted(Runs(Fresh(), LateRun()[..6]));
    RunsOn(Fresh(), LateRun(), 7);
    LateExpired(Runs(Fresh(), LateRun()[..7]));
    RunsOn(Fresh(), LateRun(), 8);
    LateReclaimed(Runs(Fresh(), LateRun()[..8]));
    RunsOn(Fresh(), LateRun(), 9);
    LateBegun(Runs(Fresh(), LateRun()[..9]));
    FinalLateStep(Runs(Fresh(), LateRun()[..10]));
  }

  lemma FinalLateStep(last: Catalog)
    requires last == Runs(Fresh(), LateRun()[..10])
    requires last.base.catalog == map["first" := Complete, "second" := Draft]
    requires LateFailure(last, LateRun()[10])
    ensures Exclusive(last.base.catalog) && !Exclusive(Runs(Fresh(), LateRun()).base.catalog)
  {
    hide Apply, LateFailure, Moved, Inv;
    BeginOk("network", false, 0, 60, 0);
    RunKeeps(Fresh(), LateRun()[..10]);
    RunsOn(Fresh(), LateRun(), 10);
    assert LateRun()[..11] == LateRun();
    StepExclusive(last, LateRun()[10]);
  }

  // -- Publication is a run of both services --

  function BaseSteps(c: Catalog, e: CatalogStep): seq<Step> {
    match e
    case Other(step) => if Ordinary(c, step) then [step] else []
    case Prepare(author, plan) =>
      if CanPrepare(c, author, plan) then [WriteCatalog(Drafted(c.base.catalog, plan.quote))] else []
    case ApproveQuote(quote, storage, gas, accepted, job, max) =>
      if CanApprove(c, quote, storage, gas, accepted, job)
      then [WriteCatalog(c.base.catalog[quote := Approved]), EnqueueJob(job, FinalizeCatalog, None, max, Some(quote))] else []
    case StartUpload(claim) =>
      if CanStart(c, claim) then [WriteCatalog(c.base.catalog[QuoteFor(c, claim).value := InUpload])] else []
    case CompleteUpload(claim) =>
      if CanComplete(c, claim) then [WriteCatalog(c.base.catalog[QuoteFor(c, claim).value := Complete])] else []
    case SucceedFinal(claim) => if At(c, claim, Ended) then [SucceedJob(claim)] else []
    case PublishVideo(claim, plan) => if CanPublish(c, claim, plan) then [FencedWrite(claim), ReadyVideo(c, claim)] else []
    case Resume(quote) =>
      if CanResume(c, quote)
      then [RequeueJob(c.jobOf[quote]), WriteCatalog(Apply(c.base, RequeueJob(c.jobOf[quote])).catalog[quote := Approved])] else []
    case _ => []
  }

  function AllBaseSteps(c: Catalog, steps: seq<CatalogStep>): seq<Step> {
    if |steps| == 0 then []
    else AllBaseSteps(c, steps[..|steps| - 1]) + BaseSteps(Runs(c, steps[..|steps| - 1]), steps[|steps| - 1])
  }

  lemma {:induction false} RunConcat(s: Services, a: seq<Step>, b: seq<Step>)
    ensures Run(s, a + b) == Run(Run(s, a), b)
  {
    hide Apply;
    if |b| == 0 {
      assert a + b == a;
    } else {
      RunConcat(s, a, b[..|b| - 1]);
      assert (a + b)[..|a + b| - 1] == a + b[..|b| - 1];
    }
  }

  lemma ShortRuns(s: Services, a: Step, b: Step)
    ensures Run(s, []) == s && Run(s, [a]) == Apply(s, a) && Run(s, [a, b]) == Apply(Apply(s, a), b)
  {
    hide Apply;
    assert [a][..0] == [] && [a, b][..1] == [a];
  }

  lemma StepIsRun(c: Catalog, e: CatalogStep)
    ensures Moved(c, e).base == Run(c.base, BaseSteps(c, e))
  {
    hide Apply, Run, CanPrepare, CanApprove, CanStart, CanComplete, CanResume, CanPublish, Ordinary, Drafted;
    var steps := BaseSteps(c, e);
    ShortRuns(c.base, if |steps| > 0 then steps[0] else FailReply, if |steps| > 1 then steps[1] else FailReply);
  }

  // So the fencing and re-quoting theorems of the services hold of every catalog run.
  lemma {:induction false} CatalogRunIsServicesRun(c: Catalog, steps: seq<CatalogStep>)
    ensures Runs(c, steps).base == Run(c.base, AllBaseSteps(c, steps))
  {
    hide Moved, Apply, BaseSteps;
    if |steps| > 0 {
      var front, last := steps[..|steps| - 1], steps[|steps| - 1];
      CatalogRunIsServicesRun(c, front);
      StepIsRun(Runs(c, front), last);
      RunConcat(c.base, AllBaseSteps(c, front), BaseSteps(Runs(c, front), last));
    }
  }
}
