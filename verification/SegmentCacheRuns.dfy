// What the segment cache answers over whole runs, and how its contents relate to recency.
module SegmentCacheRuns {
  import opened Outcomes
  import opened SegmentCaches
  import opened Sums

  // -- A hit answers with the bytes last accepted --

  datatype Op =
    | Look(now: int, address: string)
    | Store(now: int, address: string, data: Bytes)
    | Report(now: int)

  function Ran(p: Policy, ops: seq<Op>): seq<Entry> {
    if |ops| == 0 then []
    else
      var before := Ran(p, ops[..|ops| - 1]);
      match ops[|ops| - 1]
      case Look(now, address) => Got(p, before, now, address)
      case Store(now, address, data) => Inserted(p, before, now, address, data)
      case Report(now) => Pruned(before, now, PRUNED_AT_ONCE)
  }

  // The last store of the address, taken or not.
  function LastStore(ops: seq<Op>, address: string): Option<Op> {
    if |ops| == 0 then None
    else if ops[|ops| - 1].Store? && ops[|ops| - 1].address == address then Some(ops[|ops| - 1])
    else LastStore(ops[..|ops| - 1], address)
  }

  function LastAccepted(p: Policy, ops: seq<Op>, address: string): Option<Op> {
    if |ops| == 0 then None
    else if ops[|ops| - 1].Store? && ops[|ops| - 1].address == address && Accepts(p, ops[|ops| - 1].data) then Some(ops[|ops| - 1])
    else LastAccepted(p, ops[..|ops| - 1], address)
  }

  ghost predicate Current(p: Policy, ops: seq<Op>, e: Entry) {
    var last := LastAccepted(p, ops, e.address);
    last.Some? && last.value.Store? && Accepts(p, last.value.data) && e == Entry(e.address, last.value.data, last.value.now + p.ttl)
  }

  lemma {:induction false} EntriesCurrent(p: Policy, ops: seq<Op>)
    ensures Bounded(p, Ran(p, ops))
    ensures forall e :: e in Ran(p, ops) ==> Current(p, ops, e)
  {
    hide Got, Inserted, Pruned, Total;
    if |ops| == 0 {
      EmptyBounded(p);
    } else {
      var front, last := ops[..|ops| - 1], ops[|ops| - 1];
      var before := Ran(p, front);
      EntriesCurrent(p, front);
      match last {
        case Look(now, address) => GotKeeps(p, before, now, address);
        case Store(now, address, data) =>
          InsertedKeeps(p, before, now, address, data);
          StoredCurrent(p, ops);
        case Report(now) =>
          PrunedFacts(before, now, PRUNED_AT_ONCE);
          SuffixFacts(before, Pruned(before, now, PRUNED_AT_ONCE));
      }
    }
  }

  lemma EmptyBounded(p: Policy)
    ensures Bounded(p, [])
  {
  }

  // A store replaces its own address's entry or, refused, leaves it.
  lemma StoredCurrent(p: Policy, ops: seq<Op>)
    requires |ops| > 0 && ops[|ops| - 1].Store?
    requires var front := ops[..|ops| - 1]; Bounded(p, Ran(p, front)) && forall e :: e in Ran(p, front) ==> Current(p, front, e)
    ensures forall e :: e in Ran(p, ops) ==> Current(p, ops, e)
  {
    hide Pruned, Trimmed, Without, Total, Ran, LastAccepted, Accepts;
    var front, last := ops[..|ops| - 1], ops[|ops| - 1];
    StoredEntries(p, Ran(p, front), last.now, last.address, last.data);
    RanStore(p, ops);
    forall e | e in Ran(p, ops) ensures Current(p, ops, e) {
      AcceptedStep(p, ops, e.address);
    }
  }

  lemma AcceptedStep(p: Policy, ops: seq<Op>, address: string)
    requires |ops| > 0 && ops[|ops| - 1].Store?
    ensures var last := ops[|ops| - 1];
      LastAccepted(p, ops, address) ==
        if last.address == address && Accepts(p, last.data) then Some(last) else LastAccepted(p, ops[..|ops| - 1], address)
  {
  }

  lemma StoredEntries(p: Policy, entries: seq<Entry>, now: int, address: string, data: Bytes)
    requires Bounded(p, entries)
    ensures var own := Entry(address, data, now + p.ttl);
      forall e :: e in Inserted(p, entries, now, address, data) ==>
        (Accepts(p, data) && e == own) || (e in entries && (Accepts(p, data) ==> e.address != address))
  {
    hide Pruned, Trimmed, Without, Total, IsSuffix, Distinct, IndexOf;
    var pruned := Pruned(entries, now, PRUNED_AT_ONCE);
    PrunedFacts(entries, now, PRUNED_AT_ONCE);
    SuffixFacts(entries, pruned);
    if Accepts(p, data) {
      WithoutFacts(pruned, address);
      var whole := Without(pruned, address) + [Entry(address, data, now + p.ttl)];
      TrimmedIsShortest(whole, p.maxBytes);
      SuffixFacts(whole, Trimmed(whole, p.maxBytes));
      forall e | e in Inserted(p, entries, now, address, data)
        ensures e == Entry(address, data, now + p.ttl) || (e in entries && e.address != address)
      {
        assert e in whole;
      }
    }
  }

  lemma RanStore(p: Policy, ops: seq<Op>)
    requires |ops| > 0 && ops[|ops| - 1].Store?
    ensures var last := ops[|ops| - 1]; Ran(p, ops) == Inserted(p, Ran(p, ops[..|ops| - 1]), last.now, last.address, last.data)
  {
    hide Inserted;
  }

  // Over every run of operations a hit is the bytes of the last store of its address that the cache
  // took, and no older than the time to live.
  lemma HitIsLastAccepted(p: Policy, ops: seq<Op>, now: int, address: string)
    ensures var hit := Hit(p, Ran(p, ops), now, address);
      hit.Some? ==>
        var last := LastAccepted(p, ops, address);
        last.Some? && last.value.Store? && last.value.data == hit.value && now < last.value.now + p.ttl
  {
    EntriesCurrent(p, ops);
    hide Ran, Bounded, LastAccepted, Accepts;
    var at := IndexOf(Ran(p, ops), address);
    if at.Some? {
      assert Current(p, ops, Ran(p, ops)[at.value]);
    }
  }

  lemma {:induction false} LastStoreRefused(p: Policy, ops: seq<Op>, address: string)
    ensures var last, taken := LastStore(ops, address), LastAccepted(p, ops, address);
      && (last.Some? ==> last.value.Store?)
      && (taken.Some? ==> taken.value.Store? && Accepts(p, taken.value.data) && last.Some?)
      && (last.Some? && Accepts(p, last.value.data) ==> taken == last)
  {
    if |ops| > 0 {
      LastStoreRefused(p, ops[..|ops| - 1], address);
    }
  }

  // It is the bytes last stored exactly when that store was not oversized: an oversized store is
  // ignored, and leaves what it was meant to replace.
  lemma HitIsLastStored(p: Policy, ops: seq<Op>, now: int, address: string)
    ensures var hit, last := Hit(p, Ran(p, ops), now, address), LastStore(ops, address);
      hit.Some? ==> last.Some? && last.value.Store? && (hit.value == last.value.data <==> |last.value.data| <= p.maxBytes)
  {
    HitIsLastAccepted(p, ops, now, address);
    LastStoreRefused(p, ops, address);
    hide Ran;
  }

  lemma OversizedStoreLeavesOldBytes()
    ensures var p := Policy(1, 10);
      var ops := [Store(0, "a", [7]), Store(1, "a", [8, 9])];
      LastStore(ops, "a") == Some(Store(1, "a", [8, 9])) && Hit(p, Ran(p, ops), 2, "a") == Some([7])
  {
    var p := Policy(1, 10);
    var ops := [Store(0, "a", [7]), Store(1, "a", [8, 9])];
    hide Pruned, Trimmed, Without;
    assert ops[..1] == [Store(0, "a", [7])] && ops[..1][..0] == [];
    assert Ran(p, []) == [];
    assert Ran(p, ops[..1]) == Inserted(p, [], 0, "a", [7]);
    SmallInsert();
    PrunedOnce([Entry("a", [7], 10)], 1, PRUNED_AT_ONCE);
    assert Ran(p, ops) == [Entry("a", [7], 10)];
  }

  lemma SmallInsert()
    ensures Inserted(Policy(1, 10), [], 0, "a", [7]) == [Entry("a", [7], 10)]
  {
    hide Pruned;
    PrunedOnce([], 0, PRUNED_AT_ONCE);
    TotalOne(Entry("a", [7], 10));
  }
}
