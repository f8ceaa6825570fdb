// The admin service's durable job queue as a value. `attempts` grows on every claim of a job and
// fences the owners of earlier claims. Times are in ticks, finer than the gateway's seconds.
module Jobs {
  import opened Outcomes
  import opened Amounts

  datatype JobKind = ProcessVideo | UploadVideo | PublishCatalog | FinalizeCatalog | QuoteVideo

  datatype JobStatus = Queued | Running | Succeeded | Failed

  datatype JobRow = JobRow(
    kind: JobKind,
    video: Option<string>,
    status: JobStatus,
    attempts: nat,
    maxAttempts: nat,
    owner: Option<string>,
    expires: Option<int>,
    runAfter: int,
    createdAt: int,
    paymentQuote: Option<string>)

  type Queue = map<string, JobRow>

  // What a worker remembers of its claim.
  datatype Claim = Claim(id: string, kind: JobKind, video: Option<string>, owner: string, attempts: nat, maxAttempts: nat)

  predicate Pays(kind: JobKind) {
    kind.UploadVideo? || kind.FinalizeCatalog?
  }

  predicate Claimable(row: JobRow, now: int) {
    || (row.status == Queued && row.runAfter <= now)
    || (row.status == Running && row.expires.Some? && row.expires.value <= now)
  }

  predicate Before(a: JobRow, b: JobRow) {
    a.runAfter < b.runAfter || (a.runAfter == b.runAfter && a.createdAt <= b.createdAt)
  }

  // ORDER BY run_after, created_at LIMIT 1
  predicate IsNext(q: Queue, now: int, id: string) {
    && id in q && Claimable(q[id], now)
    && (forall other :: other in q && Claimable(q[other], now) ==> Before(q[id], q[other]))
  }

  function Acquire(q: Queue, now: int, lease: int, worker: string, id: string): Queue
    requires id in q
  {
    q[id := q[id].(status := Running, attempts := q[id].attempts + 1, owner := Some(worker), expires := Some(now + lease))]
  }

  function ClaimOf(q: Queue, worker: string, id: string): Claim
    requires id in q
  {
    Claim(id, q[id].kind, q[id].video, worker, q[id].attempts, q[id].maxAttempts)
  }

  // The guard of every fenced write, renewal, success and failure.
  predicate Owns(q: Queue, now: int, c: Claim) {
    && c.id in q
    && q[c.id].status == Running && q[c.id].owner == Some(c.owner) && q[c.id].attempts == c.attempts
    && q[c.id].expires.Some? && q[c.id].expires.value > now
  }

  function Renew(q: Queue, now: int, lease: int, c: Claim): Queue {
    if Owns(q, now, c) then q[c.id := q[c.id].(expires := Some(now + lease))] else q
  }

  function Released(row: JobRow, status: JobStatus): JobRow {
    row.(status := status, owner := None, expires := None)
  }

  function Succeed(q: Queue, now: int, c: Claim): Queue {
    if Owns(q, now, c) then q[c.id := Released(q[c.id], Succeeded)] else q
  }

  function RetryLater(q: Queue, now: int, c: Claim, delay: int): Queue {
    if Owns(q, now, c) then q[c.id := Released(q[c.id], Queued).(runAfter := now + delay)] else q
  }

  // Graceful shutdown names the worker, not the attempt.
  function Interrupt(q: Queue, now: int, id: string, worker: string): Queue {
    if id in q && q[id].status == Running && q[id].owner == Some(worker)
    then q[id := Released(q[id], Queued).(runAfter := now)] else q
  }

  function RecoverRow(row: JobRow, now: int): JobRow {
    if row.status == Running && (row.expires.None? || row.expires.value <= now)
    then Released(row, Queued).(runAfter := now) else row
  }

  function Recover(q: Queue, now: int): Queue {
    map id | id in q :: RecoverRow(q[id], now)
  }

  // The unique indexes: one queued or running job for a kind and video, one catalog publication and
  // one catalog finalization in all.
  predicate Conflicts(q: Queue, kind: JobKind, video: Option<string>) {
    exists id :: id in q && q[id].status in {Queued, Running} && q[id].kind == kind
      && ((video.Some? && q[id].video == video)
          || (kind.PublishCatalog? && video.None? && q[id].video.None?)
          || kind.FinalizeCatalog?)
  }

  function Requeue(q: Queue, now: int, id: string): Queue {
    if id in q && q[id].status == Failed && !Conflicts(q, q[id].kind, q[id].video)
    then q[id := Released(q[id], Queued).(
             runAfter := now,
             maxAttempts := if q[id].maxAttempts < q[id].attempts + 1 then q[id].attempts + 1 else q[id].maxAttempts)]
    else q
  }

  function Enqueue(q: Queue, now: int, id: string, kind: JobKind, video: Option<string>, max: nat, quote: Option<string>): Queue {
    if id in q || Conflicts(q, kind, video) then q
    else q[id := JobRow(kind, video, Queued, 0, max, None, None, now, now, quote)]
  }

  // -- What every operation keeps --

  ghost predicate Valid(q: Queue, now: int, lease: int) {
    forall id :: id in q ==> IsJobId(id) && RowValid(q[id], now, lease)
  }

  // A running job has an owner and a lease no longer than one lease from now; others have neither.
  ghost predicate RowValid(row: JobRow, now: int, lease: int) {
    && (row.status == Running <==> row.owner.Some?)
    && (row.status == Running <==> row.expires.Some?)
    && (row.expires.Some? ==> row.expires.value <= now + lease && row.attempts > 0)
  }

  // A job keeps its identity, its attempts only grow, and a lease that goes on only gets longer.
  ghost predicate RowMoves(a: JobRow, b: JobRow, now: int, lease: int) {
    && b.kind == a.kind && b.video == a.video && b.paymentQuote == a.paymentQuote
    && a.attempts <= b.attempts
    && RowValid(b, now, lease)
    && (b.status == Running ==>
          || (b.expires == Some(now + lease) && a.attempts < b.attempts)
          || (a.status == Running && a.attempts == b.attempts && a.owner == b.owner
              && (b.expires == a.expires || (b.expires == Some(now + lease) && a.expires.Some? && a.expires.value > now))))
  }

  ghost predicate Moves(q: Queue, r: Queue, now: int, lease: int) {
    && (forall id :: id in q ==> id in r && RowMoves(q[id], r[id], now, lease))
    && Valid(r, now, lease)
  }

  lemma RowReplaced(q: Queue, now: int, lease: int, id: string, row: JobRow)
    requires Valid(q, now, lease)
    requires RowValid(row, now, lease) && IsJobId(id)
    requires id in q ==> RowMoves(q[id], row, now, lease)
    ensures Moves(q, q[id := row], now, lease)
  {
  }

  lemma SameMoves(q: Queue, now: int, lease: int)
    requires Valid(q, now, lease)
    ensures Moves(q, q, now, lease)
  {
  }

  lemma ClaimMoves(q: Queue, now: int, lease: nat, worker: string, id: string)
    requires Valid(q, now, lease) && id in q
    ensures Moves(q, Acquire(q, now, lease, worker, id), now, lease)
  {
    RowReplaced(q, now, lease, id, Acquire(q, now, lease, worker, id)[id]);
  }

  lemma RenewMoves(q: Queue, now: int, lease: nat, c: Claim)
    requires Valid(q, now, lease)
    ensures Moves(q, Renew(q, now, lease, c), now, lease)
  {
    SameMoves(q, now, lease);
    if Owns(q, now, c) {
      RowReplaced(q, now, lease, c.id, Renew(q, now, lease, c)[c.id]);
    }
  }

  lemma ReleaseMoves(q: Queue, now: int, lease: nat, id: string, status: JobStatus, runAfter: int, max: nat)
    requires Valid(q, now, lease) && id in q && status != Running
    ensures Moves(q, q[id := Released(q[id], status).(runAfter := runAfter, maxAttempts := max)], now, lease)
  {
    RowReplaced(q, now, lease, id, Released(q[id], status).(runAfter := runAfter, maxAttempts := max));
  }

  lemma EnqueueMoves(q: Queue, now: int, lease: nat, id: string, kind: JobKind, video: Option<string>, max: nat, quote: Option<string>)
    requires Valid(q, now, lease) && IsJobId(id)
    ensures Moves(q, Enqueue(q, now, id, kind, video, max, quote), now, lease)
  {
    hide Conflicts;
    SameMoves(q, now, lease);
    if id !in q && !Conflicts(q, kind, video) {
      RowReplaced(q, now, lease, id, Enqueue(q, now, id, kind, video, max, quote)[id]);
    }
  }

  lemma RecoverMoves(q: Queue, now: int, lease: nat)
    requires Valid(q, now, lease)
    ensures Moves(q, Recover(q, now), now, lease)
  {
  }

  // Time passing keeps every row valid.
  lemma LaterValid(q: Queue, now: int, later: int, lease: int)
    requires Valid(q, now, lease) && now <= later
    ensures Valid(q, later, lease)
  {
  }

  // The least claimable job exists whenever one is claimable.
  lemma {:induction false} NextExists(q: Queue, now: int, ids: set<string>) returns (id: string)
    requires ids != {} && forall i :: i in ids ==> i in q
    ensures id in ids && forall other :: other in ids ==> Before(q[id], q[other])
    decreases |ids|
  {
    var first :| first in ids;
    var rest := ids - {first};
    assert forall other :: other in ids ==> other == first || other in rest;
    if rest == {} {
      id := first;
    } else {
      var least := NextExists(q, now, rest);
      id := if Before(q[first], q[least]) then first else least;
      forall other | other in ids ensures Before(q[id], q[other]) {
        if other != first {
          assert Before(q[least], q[other]);
        }
      }
    }
  }
}
