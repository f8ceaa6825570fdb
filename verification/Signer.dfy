// What the controlled signer derives from a prepared upload before it touches the journal.
module Signer {
  import opened Outcomes
  import opened Amounts
  import opened Sums

  const MAX_TRANSFERS := 256

  datatype Payment = Payment(quoteHash: string, amount: nat)

  // `cost` is the worst-case cost the network estimates for the batch.
  datatype Batch = Batch(cost: nat, pools: seq<string>)

  datatype Prepared = Wave(payments: seq<Payment>, total: nat) | Merkle(batches: seq<Batch>)

  // One contract call; each becomes one signed transaction.
  datatype Call = TokenApproval(amount: nat) | WaveChunk(payments: seq<Payment>) | MerkleBatch(batch: Batch)

  function PaymentAmount(): Payment -> nat {
    (p: Payment) => p.amount
  }

  function BatchCost(): Batch -> nat {
    (b: Batch) => b.cost
  }

  // The SDK's intent total is the sum of its payments.
  predicate Consistent(p: Prepared) {
    p.Wave? ==> p.total == Sum(p.payments, PaymentAmount())
  }

  function CheckedTotal(batches: seq<Batch>): Option<nat> {
    if |batches| == 0 then Some(0)
    else
      var front := CheckedTotal(batches[..|batches| - 1]);
      var cost := batches[|batches| - 1].cost;
      if front.None? || cost >= U128_LIMIT || front.value + cost >= U128_LIMIT then None else Some(front.value + cost)
  }

  // `storage_upper`: None is the conversion or overflow error.
  function StorageUpper(p: Prepared): Option<nat> {
    match p
    case Wave(_, total) => if total < U128_LIMIT then Some(total) else None
    case Merkle(batches) => CheckedTotal(batches)
  }

  function Chunks(payments: seq<Payment>): seq<Call>
    decreases |payments|
  {
    if |payments| == 0 then []
    else if |payments| <= MAX_TRANSFERS then [WaveChunk(payments)]
    else [WaveChunk(payments[..MAX_TRANSFERS])] + Chunks(payments[MAX_TRANSFERS..])
  }

  function BatchCalls(batches: seq<Batch>): seq<Call> {
    seq(|batches|, i requires 0 <= i < |batches| => MerkleBatch(batches[i]))
  }

  function Payments(p: Prepared): seq<Call> {
    match p
    case Wave(payments, _) => Chunks(payments)
    case Merkle(batches) => BatchCalls(batches)
  }

  // `pay`: a bounded token allowance first, when anything is to be paid, then every payment call.
  function Calls(p: Prepared): seq<Call> {
    if StorageUpper(p).GetOr(0) > 0 then [TokenApproval(StorageUpper(p).value)] + Payments(p) else Payments(p)
  }

  // The storage bound reserved for a call.
  function Upper(c: Call): nat {
    match c
    case TokenApproval(_) => 0
    case WaveChunk(payments) => Sum(payments, PaymentAmount())
    case MerkleBatch(batch) => batch.cost
  }

  function UpperOf(): Call -> nat {
    (c: Call) => Upper(c)
  }

  lemma {:induction false} CheckedTotalIsSum(batches: seq<Batch>)
    ensures CheckedTotal(batches).Some? ==> CheckedTotal(batches).value == Sum(batches, BatchCost())
    ensures CheckedTotal(batches).Some? <==> Sum(batches, BatchCost()) < U128_LIMIT
  {
    if |batches| > 0 {
      CheckedTotalIsSum(batches[..|batches| - 1]);
    }
  }

  lemma {:induction false} BatchCallsSum(batches: seq<Batch>)
    ensures Sum(BatchCalls(batches), UpperOf()) == Sum(batches, BatchCost())
  {
    if |batches| > 0 {
      var front := batches[..|batches| - 1];
      BatchCallsSum(front);
      assert BatchCalls(batches)[..|batches| - 1] == BatchCalls(front);
    }
  }

  lemma {:induction false} ChunksSum(payments: seq<Payment>)
    ensures Sum(Chunks(payments), UpperOf()) == Sum(payments, PaymentAmount())
    decreases |payments|
  {
    if |payments| == 0 {
    } else if |payments| <= MAX_TRANSFERS {
      assert [WaveChunk(payments)][..0] == [];
    } else {
      var head, tail := payments[..MAX_TRANSFERS], payments[MAX_TRANSFERS..];
      ChunksSum(tail);
      assert payments == head + tail;
      SumConcat(head, tail, PaymentAmount());
      SumCons(WaveChunk(head), Chunks(tail), UpperOf());
    }
  }

  // The bound checked before the first call is the sum of the bounds reserved call by call.
  lemma CallsSum(p: Prepared)
    requires Consistent(p) && StorageUpper(p).Some?
    ensures Sum(Calls(p), UpperOf()) == StorageUpper(p).value
  {
    match p {
      case Wave(payments, _) => ChunksSum(payments);
      case Merkle(batches) =>
        CheckedTotalIsSum(batches);
        BatchCallsSum(batches);
    }
    SumCons(TokenApproval(StorageUpper(p).value), Payments(p), UpperOf());
  }

  // The calls of a run of `pay` either begin with the one allowance, which covers exactly what is
  // reserved for all calls after it, or reserve nothing at all.
  ghost predicate Covered(calls: seq<Call>) {
    if calls != [] && calls[0].TokenApproval? then
      && calls[0].amount == Sum(calls[1..], UpperOf())
      && forall k :: 1 <= k < |calls| ==> !calls[k].TokenApproval?
    else forall k :: 0 <= k < |calls| ==> !calls[k].TokenApproval? && Upper(calls[k]) == 0
  }

  lemma {:induction false} AllowanceCoversCalls(p: Prepared)
    requires Consistent(p) && StorageUpper(p).Some?
    ensures Covered(Calls(p))
    ensures Calls(p) != [] && Calls(p)[0].TokenApproval? <==> StorageUpper(p).value > 0
  {
    hide Chunks, StorageUpper, Consistent, Upper;
    CallsSum(p);
    OnlyPayments(p);
    var calls, upper := Calls(p), StorageUpper(p).value;
    if upper > 0 {
      assert calls == [TokenApproval(upper)] + Payments(p) && calls[1..] == Payments(p);
      SumCons(TokenApproval(upper), Payments(p), UpperOf());
      assert UpperOf()(TokenApproval(upper)) == 0 by { AllowanceReservesNothing(upper); }
    } else {
      forall k | 0 <= k < |calls| ensures !calls[k].TokenApproval? && Upper(calls[k]) == 0 {
        SumAtLeast(calls, k, UpperOf());
      }
    }
  }

  lemma AllowanceReservesNothing(amount: nat)
    ensures Upper(TokenApproval(amount)) == 0
  {
  }

  lemma OnlyPayments(p: Prepared)
    ensures forall c :: c in Payments(p) ==> !c.TokenApproval?
  {
    hide Chunks;
    match p {
      case Wave(payments, _) => ChunksPartition(payments);
      case Merkle(_) =>
    }
  }

  // -- Wave proofs --

  function PaymentsOf(calls: seq<Call>): seq<Payment> {
    if |calls| == 0 then []
    else PaymentsOf(calls[..|calls| - 1]) + (if calls[|calls| - 1].WaveChunk? then calls[|calls| - 1].payments else [])
  }

  function Record(before: map<string, string>, payments: seq<Payment>, hash: string): map<string, string> {
    before + map p | p in payments :: p.quoteHash := hash
  }

  // The map `pay` returns: every payment of a chunk points at the transaction that paid the chunk.
  function ProofMap(calls: seq<Call>, hashes: seq<string>): map<string, string>
    requires |hashes| == |calls|
  {
    if |calls| == 0 then map[]
    else
      var last := |calls| - 1;
      var rest := ProofMap(calls[..last], hashes[..last]);
      if calls[last].WaveChunk? then Record(rest, calls[last].payments, hashes[last]) else rest
  }

  ghost predicate PaidBy(c: Call, quote: string) {
    c.WaveChunk? && exists p :: p in c.payments && p.quoteHash == quote
  }

  ghost predicate LastPaidBy(calls: seq<Call>, k: int, quote: string) {
    0 <= k < |calls| && PaidBy(calls[k], quote) && forall j :: k < j < |calls| ==> !PaidBy(calls[j], quote)
  }

  // A quote hash is proved by the last chunk that paid it, and by nothing else.
  lemma {:induction false} ProofMapExact(calls: seq<Call>, hashes: seq<string>, quote: string)
    requires |hashes| == |calls|
    ensures quote in ProofMap(calls, hashes) <==> exists k :: 0 <= k < |calls| && PaidBy(calls[k], quote)
    ensures forall k :: LastPaidBy(calls, k, quote) ==>
              quote in ProofMap(calls, hashes) && ProofMap(calls, hashes)[quote] == hashes[k]
  {
    if |calls| > 0 {
      var last := |calls| - 1;
      ProofMapExact(calls[..last], hashes[..last], quote);
      var rest := ProofMap(calls[..last], hashes[..last]);
      if PaidBy(calls[last], quote) {
        var p :| p in calls[last].payments && p.quoteHash == quote;
      } else {
        assert quote in ProofMap(calls, hashes) <==> quote in rest;
        assert forall k :: 0 <= k < last ==> calls[..last][k] == calls[k];
        if exists k :: 0 <= k < last && PaidBy(calls[k], quote) {
          var k :| 0 <= k < last && PaidBy(calls[k], quote);
          assert PaidBy(calls[..last][k], quote);
        }
      }
    }
  }

  lemma {:induction false} PaymentsOfConcat(a: seq<Call>, b: seq<Call>)
    ensures PaymentsOf(a + b) == PaymentsOf(a) + PaymentsOf(b)
  {
    if |b| == 0 {
      assert a + b == a;
    } else {
      PaymentsOfConcat(a, b[..|b| - 1]);
      assert (a + b)[..|a + b| - 1] == a + b[..|b| - 1];
    }
  }

  // Chunking keeps every payment, once and in order, at most 256 to a call.
  lemma {:induction false} ChunksPartition(payments: seq<Payment>)
    ensures PaymentsOf(Chunks(payments)) == payments
    ensures forall c :: c in Chunks(payments) ==> c.WaveChunk? && 0 < |c.payments| <= 256
    decreases |payments|
  {
    if |payments| == 0 {
    } else if |payments| <= MAX_TRANSFERS {
      assert [WaveChunk(payments)][..0] == [];
    } else {
      var head, tail := [WaveChunk(payments[..MAX_TRANSFERS])], payments[MAX_TRANSFERS..];
      ChunksPartition(tail);
      PaymentsOfConcat(head, Chunks(tail));
      assert head[..0] == [];
    }
  }
}
