// The streaming service's byte-bounded segment cache. The linked map is a sequence of entries with
// distinct addresses, least recently used first.
module SegmentCaches {
  import opened Outcomes
  import opened Sums

  type Bytes = seq<bv8>

  datatype Entry = Entry(address: string, data: Bytes, expires: int)

  // `ttl` in the clock's own unit.
  datatype Policy = Policy(maxBytes: nat, ttl: nat) {
    predicate Disabled() {
      maxBytes == 0 || ttl == 0
    }
  }

  const PRUNED_AT_ONCE := 64
  const COUNTER_MAX := 0xFFFF_FFFF_FFFF_FFFF

  function SizeOf(): Entry -> nat {
    (e: Entry) => |e.data|
  }

  function Total(entries: seq<Entry>): nat {
    Sum(entries, SizeOf())
  }

  ghost predicate Distinct(entries: seq<Entry>) {
    forall i, j :: 0 <= i < j < |entries| ==> entries[i].address != entries[j].address
  }

  function IndexOf(entries: seq<Entry>, address: string): (r: Option<nat>)
    ensures r.Some? ==> r.value < |entries| && entries[r.value].address == address
    ensures r.None? ==> forall i :: 0 <= i < |entries| ==> entries[i].address != address
  {
    if entries == [] then None
    else if entries[|entries| - 1].address == address then Some(|entries| - 1)
    else IndexOf(entries[..|entries| - 1], address)
  }

  function Without(entries: seq<Entry>, address: string): seq<Entry> {
    var at := IndexOf(entries, address);
    if at.Some? then entries[..at.value] + entries[at.value + 1..] else entries
  }

  // -- What the operations leave --

  function Pruned(entries: seq<Entry>, now: int, n: nat): seq<Entry> {
    if n == 0 || entries == [] || entries[0].expires > now then entries else Pruned(entries[1..], now, n - 1)
  }

  function Trimmed(entries: seq<Entry>, maxBytes: nat): seq<Entry> {
    if entries == [] || Total(entries) <= maxBytes then entries else Trimmed(entries[1..], maxBytes)
  }

  function Hit(p: Policy, entries: seq<Entry>, now: int, address: string): Option<Bytes> {
    var at := IndexOf(entries, address);
    if p.Disabled() || at.None? || entries[at.value].expires <= now then None else Some(entries[at.value].data)
  }

  function Got(p: Policy, entries: seq<Entry>, now: int, address: string): seq<Entry> {
    var at := IndexOf(entries, address);
    if p.Disabled() || at.None? then entries
    else if entries[at.value].expires > now then Without(entries, address) + [entries[at.value]]
    else Without(entries, address)
  }

  predicate Accepts(p: Policy, data: Bytes) {
    !p.Disabled() && |data| <= p.maxBytes
  }

  function Inserted(p: Policy, entries: seq<Entry>, now: int, address: string, data: Bytes): seq<Entry> {
    var pruned := Pruned(entries, now, PRUNED_AT_ONCE);
    if !Accepts(p, data) then pruned
    else Trimmed(Without(pruned, address) + [Entry(address, data, now + p.ttl)], p.maxBytes)
  }

  function SaturatingSub(a: nat, b: nat): nat {
    if a < b then 0 else a - b
  }

  // A saturating 64-bit counter.
  function Counted(before: nat, evicted: int): nat {
    if before + evicted < 0 then 0 else if before + evicted > COUNTER_MAX then COUNTER_MAX else before + evicted
  }

  // An entry replaced under its own address is not an eviction.
  function Evicted(p: Policy, entries: seq<Entry>, now: int, address: string, data: Bytes): int {
    var pruned := Pruned(entries, now, PRUNED_AT_ONCE);
    |entries| - |pruned|
    + if !Accepts(p, data) then 0 else |Without(pruned, address)| + 1 - |Inserted(p, entries, now, address, data)|
  }

  // -- Facts about them --

  lemma TotalConcat(a: seq<Entry>, b: seq<Entry>)
    ensures Total(a + b) == Total(a) + Total(b)
  {
    SumConcat(a, b, SizeOf());
  }

  lemma TotalOne(e: Entry)
    ensures Total([e]) == |e.data|
  {
    SumAppend([], e, SizeOf());
    assert [] + [e] == [e];
  }

  lemma WithoutWeighs(entries: seq<Entry>, address: string)
    ensures |Without(entries, address)| == if IndexOf(entries, address).Some? then |entries| - 1 else |entries|
    ensures var at := IndexOf(entries, address);
      at.Some? ==> Total(entries) == Total(Without(entries, address)) + |entries[at.value].data|
  {
    hide Total;
    var at := IndexOf(entries, address);
    if at.Some? {
      var front, back := entries[..at.value], entries[at.value + 1..];
      assert entries == front + [entries[at.value]] + back;
      TotalConcat(front + [entries[at.value]], back);
      TotalConcat(front, [entries[at.value]]);
      TotalOne(entries[at.value]);
      TotalConcat(front, back);
    }
  }

  lemma {:induction false} WithoutFacts(entries: seq<Entry>, address: string)
    requires Distinct(entries)
    ensures var w := Without(entries, address);
      && Distinct(w)
      && (forall e :: e in w ==> e in entries && e.address != address)
      && (forall e :: e in entries && e.address != address ==> e in w)
    ensures var at := IndexOf(entries, address);
      at.Some? ==> Total(entries) == Total(Without(entries, address)) + |entries[at.value].data|
  {
    hide Total;
    WithoutWeighs(entries, address);
    var at, w := IndexOf(entries, address), Without(entries, address);
    if at.Some? {
      Spliced(entries, at.value);
    }
  }

  lemma Spliced(entries: seq<Entry>, at: nat)
    requires Distinct(entries) && at < |entries|
    ensures var w := entries[..at] + entries[at + 1..];
      && Distinct(w)
      && (forall e :: e in w ==> e in entries && e.address != entries[at].address)
      && (forall e :: e in entries && e.address != entries[at].address ==> e in w)
  {
    var w := entries[..at] + entries[at + 1..];
    forall i, j | 0 <= i < j < |w| ensures w[i].address != w[j].address {
      var i', j' := if i < at then i else i + 1, if j < at then j else j + 1;
      assert w[i] == entries[i'] && w[j] == entries[j'];
    }
    forall e | e in w ensures e in entries && e.address != entries[at].address {
      var i :| 0 <= i < |w| && w[i] == e;
      var i' := if i < at then i else i + 1;
      assert entries[i'] == e;
    }
    forall e | e in entries && e.address != entries[at].address ensures e in w {
      var i :| 0 <= i < |entries| && entries[i] == e;
      assert w[if i < at then i else i - 1] == e;
    }
  }

  ghost predicate IsSuffix(whole: seq<Entry>, part: seq<Entry>) {
    |part| <= |whole| && part == whole[|whole| - |part|..]
  }

  // Eviction to the limit removes the shortest prefix, from the least recently used end, after
  // which the rest fits.
  lemma {:induction false} TrimmedIsShortest(entries: seq<Entry>, maxBytes: nat)
    ensures var t := Trimmed(entries, maxBytes);
      && IsSuffix(entries, t)
      && Total(t) <= maxBytes
      && (forall longer :: IsSuffix(entries, longer) && |longer| > |t| ==> Total(longer) > maxBytes)
  {
    if entries != [] && Total(entries) > maxBytes {
      TrimmedIsShortest(entries[1..], maxBytes);
      var t := Trimmed(entries, maxBytes);
      forall longer | IsSuffix(entries, longer) && |longer| > |t| ensures Total(longer) > maxBytes {
        if |longer| < |entries| {
          assert longer == entries[1..][|entries| - 1 - |longer|..];
        } else {
          assert longer == entries;
        }
      }
    }
  }

  // Pruning removes only expired entries, from the same end.
  lemma {:induction false} PrunedFacts(entries: seq<Entry>, now: int, n: nat)
    ensures var t := Pruned(entries, now, n);
      && IsSuffix(entries, t)
      && (forall i :: 0 <= i < |entries| - |t| ==> entries[i].expires <= now)
      && (|entries| - |t| < n && t != [] ==> t[0].expires > now)
  {
    if n > 0 && entries != [] && entries[0].expires <= now {
      PrunedFacts(entries[1..], now, n - 1);
      var t := Pruned(entries, now, n);
      forall i | 0 <= i < |entries| - |t| ensures entries[i].expires <= now {
        if i > 0 {
          assert entries[i] == entries[1..][i - 1];
        }
      }
    }
  }

  lemma SuffixFacts(whole: seq<Entry>, part: seq<Entry>)
    requires IsSuffix(whole, part)
    ensures Distinct(whole) ==> Distinct(part)
    ensures Total(part) <= Total(whole)
    ensures forall e :: e in part ==> e in whole
  {
    var front := whole[..|whole| - |part|];
    assert whole == front + part;
    TotalConcat(front, part);
  }

  // -- The invariant --

  ghost predicate Bounded(p: Policy, entries: seq<Entry>) {
    && Distinct(entries)
    && Total(entries) <= p.maxBytes
    && (p.Disabled() ==> entries == [])
  }

  lemma GotKeeps(p: Policy, entries: seq<Entry>, now: int, address: string)
    requires Bounded(p, entries)
    ensures Bounded(p, Got(p, entries, now, address))
    ensures forall e :: e in Got(p, entries, now, address) ==> e in entries
  {
    WithoutFacts(entries, address);
    var at := IndexOf(entries, address);
    if at.Some? {
      TotalConcat(Without(entries, address), [entries[at.value]]);
      TotalOne(entries[at.value]);
    }
  }

  lemma InsertedKeeps(p: Policy, entries: seq<Entry>, now: int, address: string, data: Bytes)
    requires Bounded(p, entries)
    ensures Bounded(p, Inserted(p, entries, now, address, data))
    ensures forall e :: e in Inserted(p, entries, now, address, data) ==> e in entries || e == Entry(address, data, now + p.ttl)
  {
    hide Pruned, Trimmed, Without, Total;
    var pruned := Pruned(entries, now, PRUNED_AT_ONCE);
    PrunedFacts(entries, now, PRUNED_AT_ONCE);
    SuffixFacts(entries, pruned);
    if Accepts(p, data) {
      WithoutFacts(pruned, address);
      var whole := Without(pruned, address) + [Entry(address, data, now + p.ttl)];
      assert Distinct(whole);
      TrimmedIsShortest(whole, p.maxBytes);
      SuffixFacts(whole, Trimmed(whole, p.maxBytes));
    }
  }

  // An accepted insert is the most recent entry afterwards, and no entry of its address is older:
  // an insert never evicts itself.
  lemma OwnInsertStays(p: Policy, entries: seq<Entry>, now: int, address: string, data: Bytes)
    requires Bounded(p, entries) && Accepts(p, data)
    ensures var after := Inserted(p, entries, now, address, data);
      && after != [] && after[|after| - 1] == Entry(address, data, now + p.ttl)
      && Hit(p, after, now, address) == Some(data)
  {
    hide Pruned, Trimmed, Without, Total;
    var pruned := Pruned(entries, now, PRUNED_AT_ONCE);
    var own := Entry(address, data, now + p.ttl);
    var whole := Without(pruned, address) + [own];
    TrimmedIsShortest(whole, p.maxBytes);
    TotalOne(own);
    assert IsSuffix(whole, [own]);
  }

  // A lookup leaves no expired entry of its address, and keeps every other entry.
  lemma LookupDropsExpired(p: Policy, entries: seq<Entry>, now: int, address: string)
    requires Bounded(p, entries)
    ensures forall e :: e in Got(p, entries, now, address) && e.address == address ==> e.expires > now && Hit(p, entries, now, address) == Some(e.data)
    ensures forall e :: e in entries && e.address != address ==> e in Got(p, entries, now, address)
  {
    hide Total;
    WithoutFacts(entries, address);
    hide Without;
  }

  // A store, taken or refused, keeps nothing of what its pruning removes.
  lemma StorePrunesFirst(p: Policy, entries: seq<Entry>, now: int, address: string, data: Bytes)
    requires Bounded(p, entries)
    ensures forall e :: e in Inserted(p, entries, now, address, data) ==> e in Pruned(entries, now, 64) || e == Entry(address, data, now + p.ttl)
    ensures !Accepts(p, data) ==> Inserted(p, entries, now, address, data) == Pruned(entries, now, 64)
  {
    hide Pruned, Trimmed, Total, Without, Distinct, Accepts;
    var pruned := Pruned(entries, now, PRUNED_AT_ONCE);
    var own := Entry(address, data, now + p.ttl);
    PrunedFacts(entries, now, PRUNED_AT_ONCE);
    SuffixFacts(entries, pruned);
    WithoutFacts(pruned, address);
    TrimmedIsShortest(Without(pruned, address) + [own], p.maxBytes);
    SuffixMembers(Without(pruned, address), own, Trimmed(Without(pruned, address) + [own], p.maxBytes));
  }

  lemma SuffixMembers(front: seq<Entry>, own: Entry, part: seq<Entry>)
    requires IsSuffix(front + [own], part)
    ensures forall e :: e in part ==> e in front || e == own
  {
  }

  // What was there and what is new are what is left and what was evicted; data stored again under its
  // own address is neither new nor evicted.
  lemma EvictedConserves(p: Policy, entries: seq<Entry>, now: int, address: string, data: Bytes)
    requires Bounded(p, entries)
    ensures var resident := exists e :: e in Pruned(entries, now, 64) && e.address == address;
      |entries| + (if p.maxBytes > 0 && p.ttl > 0 && |data| <= p.maxBytes && !resident then 1 else 0)
        == |Inserted(p, entries, now, address, data)| + Evicted(p, entries, now, address, data)
  {
    hide Pruned, Trimmed, Without, Total;
    var pruned := Pruned(entries, now, PRUNED_AT_ONCE);
    WithoutWeighs(pruned, address);
    var at := IndexOf(pruned, address);
    if at.Some? {
      assert pruned[at.value] in pruned;
    }
  }

  // -- The cache object --

  lemma PrunedOnce(entries: seq<Entry>, now: int, n: nat)
    ensures n > 0 && entries != [] && entries[0].expires <= now ==> Pruned(entries, now, n) == Pruned(entries[1..], now, n - 1)
    ensures n == 0 || entries == [] || entries[0].expires > now ==> Pruned(entries, now, n) == entries
  {
  }

  lemma FrontGone(entries: seq<Entry>)
    requires Distinct(entries) && entries != []
    ensures Without(entries, entries[0].address) == entries[1..] && IndexOf(entries, entries[0].address) == Some(0)
  {
  }

  class SegmentCache {
    var entries: seq<Entry>
    var totalBytes: nat
    const policy: Policy
    var evictionsTotal: nat

    // The byte counter is exact; the bound holds between operations.
    ghost predicate Counts()
      reads this
    {
      evictionsTotal <= COUNTER_MAX && Distinct(entries) && totalBytes == Total(entries) && (policy.Disabled() ==> entries == [])
    }

    ghost predicate Valid()
      reads this
    {
      Counts() && Bounded(policy, entries)
    }

    constructor (policy: Policy)
      ensures Valid() && entries == [] && this.policy == policy && evictionsTotal == 0
    {
      this.policy := policy;
      entries, totalBytes, evictionsTotal := [], 0, 0;
    }

    method Get(now: int, address: string) returns (data: Option<Bytes>)
      requires Valid()
      modifies this`entries, this`totalBytes, this`evictionsTotal
      ensures Valid()
      ensures data == Hit(policy, old(entries), now, address)
      ensures entries == Got(policy, old(entries), now, address)
      ensures evictionsTotal == Counted(old(evictionsTotal), |old(entries)| - |entries|)
    {
      hide Total, Without;
      WithoutWeighs(entries, address);
      GotKeeps(policy, entries, now, address);
      data := None;
      if policy.maxBytes == 0 || policy.ttl == 0 {
        return;
      }
      var at := IndexOf(entries, address);
      if at.Some? {
        // get_refresh moves the entry to the back before its expiry is looked at.
        var entry := entries[at.value];
        if entry.expires > now {
          TotalConcat(Without(entries, address), [entry]);
          TotalOne(entry);
          entries := Without(entries, address) + [entry];
          data := Some(entry.data);
        } else {
          EvictAddress(address);
        }
      }
    }

    method Insert(now: int, address: string, data: Bytes)
      requires Valid()
      modifies this`entries, this`totalBytes, this`evictionsTotal
      ensures Valid()
      ensures entries == Inserted(policy, old(entries), now, address, data)
      ensures evictionsTotal == Counted(old(evictionsTotal), Evicted(policy, old(entries), now, address, data))
    {
      hide Total, Without, Pruned, Trimmed;
      InsertedKeeps(policy, entries, now, address, data);
      PruneExpired(now);
      if policy.maxBytes == 0 || policy.ttl == 0 || |data| > policy.maxBytes {
        return;
      }
      WithoutFacts(entries, address);
      WithoutWeighs(entries, address);
      Remove(address);
      var entry := Entry(address, data, now + policy.ttl);
      TotalConcat(entries, [entry]);
      TotalOne(entry);
      totalBytes := totalBytes + |data|;
      entries := entries + [entry];
      EvictToLimit();
    }

    method Remove(address: string)
      requires Counts()
      modifies this`entries, this`totalBytes
      ensures Counts() && entries == Without(old(entries), address)
    {
      hide Total;
      WithoutFacts(entries, address);
      var at := IndexOf(entries, address);
      if at.Some? {
        var size := |entries[at.value].data|;
        entries := entries[..at.value] + entries[at.value + 1..];
        totalBytes := SaturatingSub(totalBytes, size);
      }
    }

    method EvictAddress(address: string)
      requires Counts()
      modifies this`entries, this`totalBytes, this`evictionsTotal
      ensures Counts() && entries == Without(old(entries), address)
      ensures evictionsTotal == Counted(old(evictionsTotal), |old(entries)| - |entries|)
    {
      hide Total;
      WithoutFacts(entries, address);
      var at := IndexOf(entries, address);
      if at.Some? {
        var size := |entries[at.value].data|;
        entries := entries[..at.value] + entries[at.value + 1..];
        totalBytes := SaturatingSub(totalBytes, size);
        evictionsTotal := if evictionsTotal >= COUNTER_MAX then COUNTER_MAX else evictionsTotal + 1;
      }
    }

    method EvictToLimit()
      requires Counts()
      modifies this`entries, this`totalBytes, this`evictionsTotal
      ensures Valid() && entries == Trimmed(old(entries), policy.maxBytes)
      ensures |entries| <= |old(entries)| && evictionsTotal == Counted(old(evictionsTotal), |old(entries)| - |entries|)
    {
      hide Without;
      while totalBytes > policy.maxBytes
        invariant Counts()
        invariant Trimmed(entries, policy.maxBytes) == Trimmed(old(entries), policy.maxBytes)
        invariant |entries| <= |old(entries)| && evictionsTotal == Counted(old(evictionsTotal), |old(entries)| - |entries|)
        decreases |entries|
      {
        if entries == [] {
          break;
        }
        FrontGone(entries);
        EvictAddress(entries[0].address);
      }
    }

    // At most 64 entries at a time.
    method PruneExpired(now: int)
      requires Valid()
      modifies this`entries, this`totalBytes, this`evictionsTotal
      ensures Valid() && entries == Pruned(old(entries), now, PRUNED_AT_ONCE)
      ensures |entries| <= |old(entries)| && evictionsTotal == Counted(old(evictionsTotal), |old(entries)| - |entries|)
    {
      hide Without, Pruned, Total;
      var left := PRUNED_AT_ONCE;
      while left > 0 && entries != [] && entries[0].expires <= now
        invariant 0 <= left <= PRUNED_AT_ONCE
        invariant Valid()
        invariant Pruned(entries, now, left) == Pruned(old(entries), now, PRUNED_AT_ONCE)
        invariant |entries| <= |old(entries)| && evictionsTotal == Counted(old(evictionsTotal), |old(entries)| - |entries|)
        decreases left
      {
        PrunedOnce(entries, now, left);
        FrontGone(entries);
        SuffixFacts(entries, entries[1..]);
        EvictAddress(entries[0].address);
        left := left - 1;
      }
      PrunedOnce(entries, now, left);
    }

    method Snapshot(now: int) returns (bytesResident: nat, count: nat)
      requires Valid()
      modifies this`entries, this`totalBytes, this`evictionsTotal
      ensures Valid() && entries == Pruned(old(entries), now, PRUNED_AT_ONCE)
      ensures bytesResident == Total(entries) <= policy.maxBytes && count == |entries|
    {
      hide Total, Pruned;
      PruneExpired(now);
      bytesResident, count := totalBytes, |entries|;
    }
  }
}
