// Within one time to live, and with the bytes of an address fixed, as they are on a network that
// names data by its content, the cache is determined by recency alone: it holds the longest run of
// most recently requested addresses that fits. Data larger than the whole cache leaves no trace.
module SegmentCacheRecency {
  import opened Outcomes
  import opened SegmentCaches
  import opened SegmentCacheRuns
  import opened Sums

  datatype Request = Request(now: int, address: string)

  type Content = string -> Bytes

  // A request looks the address up and stores what it had to fetch.
  function Served(p: Policy, entries: seq<Entry>, r: Request, content: Content): seq<Entry> {
    if Hit(p, entries, r.now, r.address).Some? then Got(p, entries, r.now, r.address)
    else Inserted(p, Got(p, entries, r.now, r.address), r.now, r.address, content(r.address))
  }

  function ServedAll(p: Policy, requests: seq<Request>, content: Content): seq<Entry> {
    if |requests| == 0 then []
    else Served(p, ServedAll(p, requests[..|requests| - 1], content), requests[|requests| - 1], content)
  }

  // -- The recency list --

  function Drop(addresses: seq<string>, address: string): seq<string> {
    if |addresses| == 0 then []
    else Drop(addresses[..|addresses| - 1], address) + (if addresses[|addresses| - 1] == address then [] else [addresses[|addresses| - 1]])
  }

  // The addresses by their last request; one whose data no cache of this size could hold is left out.
  function Recency(requests: seq<Request>, content: Content, maxBytes: nat): seq<string> {
    if |requests| == 0 then []
    else
      var before, address := Recency(requests[..|requests| - 1], content, maxBytes), requests[|requests| - 1].address;
      if |content(address)| <= maxBytes then Drop(before, address) + [address] else before
  }

  function LengthOf(content: Content): string -> nat {
    (a: string) => |content(a)|
  }

  function Weight(addresses: seq<string>, content: Content): nat {
    Sum(addresses, LengthOf(content))
  }

  function LongestFit(addresses: seq<string>, content: Content, maxBytes: nat): seq<string> {
    if addresses == [] || Weight(addresses, content) <= maxBytes then addresses else LongestFit(addresses[1..], content, maxBytes)
  }

  ghost predicate Tail(whole: seq<string>, part: seq<string>) {
    |part| <= |whole| && part == whole[|whole| - |part|..]
  }

  // LongestFit is what its name says, and nothing else is.
  ghost predicate IsLongestFit(addresses: seq<string>, part: seq<string>, content: Content, maxBytes: nat) {
    && Tail(addresses, part)
    && Weight(part, content) <= maxBytes
    && (|part| < |addresses| ==> Weight([addresses[|addresses| - |part| - 1]] + part, content) > maxBytes)
  }

  lemma {:induction false} LongestFitExact(addresses: seq<string>, content: Content, maxBytes: nat)
    ensures IsLongestFit(addresses, LongestFit(addresses, content, maxBytes), content, maxBytes)
  {
    if addresses != [] && Weight(addresses, content) > maxBytes {
      var fit := LongestFit(addresses, content, maxBytes);
      LongestFitExact(addresses[1..], content, maxBytes);
      if |fit| == |addresses| - 1 {
        assert [addresses[0]] + fit == addresses;
      }
    }
  }

  lemma WeightConcat(a: seq<string>, b: seq<string>, content: Content)
    ensures Weight(a + b, content) == Weight(a, content) + Weight(b, content)
  {
    SumConcat(a, b, LengthOf(content));
  }

  lemma WeightOne(a: string, content: Content)
    ensures Weight([a], content) == |content(a)|
  {
    SumAppend([], a, LengthOf(content));
    assert [] + [a] == [a];
  }

  lemma TailWeight(whole: seq<string>, part: seq<string>, content: Content)
    requires Tail(whole, part)
    ensures Weight(part, content) <= Weight(whole, content)
  {
    assert whole == whole[..|whole| - |part|] + part;
    WeightConcat(whole[..|whole| - |part|], part, content);
  }

  lemma OneLongestFit(addresses: seq<string>, a: seq<string>, b: seq<string>, content: Content, maxBytes: nat)
    requires IsLongestFit(addresses, a, content, maxBytes) && IsLongestFit(addresses, b, content, maxBytes)
    ensures a == b
  {
    hide Weight;
    if |a| < |b| {
      NotLonger(addresses, a, b, content, maxBytes);
    } else if |b| < |a| {
      NotLonger(addresses, b, a, content, maxBytes);
    }
  }

  lemma NotLonger(addresses: seq<string>, a: seq<string>, b: seq<string>, content: Content, maxBytes: nat)
    requires IsLongestFit(addresses, a, content, maxBytes) && Tail(addresses, b) && |a| < |b|
    ensures Weight(b, content) > maxBytes
  {
    hide Weight;
    var more := [addresses[|addresses| - |a| - 1]] + a;
    assert Tail(b, more) by {
      assert more == addresses[|addresses| - |a| - 1..];
    }
    TailWeight(b, more, content);
  }

  // -- Dropping an address --

  lemma {:induction false} DropFacts(addresses: seq<string>, address: string)
    ensures address !in Drop(addresses, address)
    ensures forall a :: a in Drop(addresses, address) ==> a in addresses
    ensures address !in addresses ==> Drop(addresses, address) == addresses
  {
    if |addresses| > 0 {
      DropFacts(addresses[..|addresses| - 1], address);
    }
  }

  lemma {:induction false} DropConcat(a: seq<string>, b: seq<string>, address: string)
    ensures Drop(a + b, address) == Drop(a, address) + Drop(b, address)
  {
    if |b| == 0 {
      assert a + b == a;
    } else {
      DropConcat(a, b[..|b| - 1], address);
      assert (a + b)[..|a + b| - 1] == a + b[..|b| - 1];
    }
  }

  ghost predicate Unique(addresses: seq<string>) {
    forall i, j :: 0 <= i < j < |addresses| ==> addresses[i] != addresses[j]
  }

  lemma {:induction false} DropUnique(addresses: seq<string>, address: string)
    requires Unique(addresses)
    ensures Unique(Drop(addresses, address))
  {
    if |addresses| > 0 {
      var last := |addresses| - 1;
      DropUnique(addresses[..last], address);
      DropFacts(addresses[..last], address);
      assert addresses[last] !in addresses[..last];
    }
  }

  lemma {:induction false} RecencyUnique(requests: seq<Request>, content: Content, maxBytes: nat)
    ensures Unique(Recency(requests, content, maxBytes))
  {
    if |requests| > 0 {
      var front := Recency(requests[..|requests| - 1], content, maxBytes);
      RecencyUnique(requests[..|requests| - 1], content, maxBytes);
      DropUnique(front, requests[|requests| - 1].address);
      DropFacts(front, requests[|requests| - 1].address);
    }
  }

  lemma {:induction false} DropWeight(addresses: seq<string>, address: string, content: Content)
    requires Unique(addresses) && address in addresses
    ensures Weight(addresses, content) == Weight(Drop(addresses, address), content) + |content(address)|
  {
    hide Weight;
    var last := |addresses| - 1;
    var front, end := addresses[..last], addresses[last];
    assert addresses == front + [end];
    WeightConcat(front, [end], content);
    WeightOne(end, content);
    if end == address {
      DropFacts(front, address);
      assert Drop(addresses, address) == front;
    } else {
      DropWeight(front, address, content);
      WeightConcat(Drop(front, address), [end], content);
    }
  }

  // -- One request, on addresses alone --

  // The address is held: it moves to the end.
  lemma {:induction false} HeldStep(recency: seq<string>, held: seq<string>, address: string, content: Content, maxBytes: nat)
    requires Unique(recency) && IsLongestFit(recency, held, content, maxBytes) && address in held
    ensures IsLongestFit(Drop(recency, address) + [address], Drop(held, address) + [address], content, maxBytes)
  {
    hide Weight, Drop, Unique;
    var cold := recency[..|recency| - |held|];
    assert recency == cold + held;
    HeldShape(recency, cold, held, address);
    DropWeight(held, address, content);
    WeightConcat(Drop(held, address), [address], content);
    WeightOne(address, content);
    SwapFit(cold, held, Drop(held, address) + [address], content, maxBytes);
  }

  lemma SwapFit(cold: seq<string>, held: seq<string>, after: seq<string>, content: Content, maxBytes: nat)
    requires IsLongestFit(cold + held, held, content, maxBytes)
    requires |after| == |held| && Weight(after, content) == Weight(held, content)
    ensures IsLongestFit(cold + after, after, content, maxBytes)
  {
    hide Weight;
    if cold != [] {
      var x := [cold[|cold| - 1]];
      WeightConcat(x, held, content);
      WeightConcat(x, after, content);
    }
  }

  lemma HeldShape(recency: seq<string>, cold: seq<string>, held: seq<string>, address: string)
    requires Unique(recency) && recency == cold + held && address in held
    ensures Drop(recency, address) + [address] == cold + (Drop(held, address) + [address])
    ensures |Drop(held, address)| + 1 == |held| && Unique(held)
  {
    var k :| 0 <= k < |held| && held[k] == address;
    forall i | 0 <= i < |cold| ensures cold[i] != address {
      assert recency[i] == cold[i] && recency[|cold| + k] == address;
    }
    DropConcat(cold, held, address);
    DropFacts(cold, address);
    UniqueTail(recency, cold, held);
    DropLength(held, address);
  }

  lemma UniqueTail(recency: seq<string>, cold: seq<string>, held: seq<string>)
    requires Unique(recency) && recency == cold + held
    ensures Unique(held)
  {
    forall i, j | 0 <= i < j < |held| ensures held[i] != held[j] {
      assert recency[|cold| + i] == held[i] && recency[|cold| + j] == held[j];
    }
  }

  lemma {:induction false} DropLength(addresses: seq<string>, address: string)
    requires Unique(addresses) && address in addresses
    ensures |Drop(addresses, address)| + 1 == |addresses|
  {
    var last := |addresses| - 1;
    if addresses[last] == address {
      DropFacts(addresses[..last], address);
    } else {
      DropLength(addresses[..last], address);
    }
  }

  // It is not: it is appended, and the oldest go until the rest fits.
  lemma MissedStep(recency: seq<string>, held: seq<string>, address: string, content: Content, maxBytes: nat)
    requires IsLongestFit(recency, held, content, maxBytes) && address !in held
    ensures IsLongestFit(Drop(recency, address) + [address], LongestFit(held + [address], content, maxBytes), content, maxBytes)
  {
    hide Weight, LongestFit, Drop;
    var cold := recency[..|recency| - |held|];
    assert recency == cold + held;
    DropConcat(cold, held, address);
    DropFacts(held, address);
    var whole, part := held + [address], LongestFit(held + [address], content, maxBytes);
    LongestFitExact(whole, content, maxBytes);
    var rest := Drop(cold, address);
    assert Drop(recency, address) + [address] == rest + whole;
    if |part| == |whole| && rest != [] {
      NextIsTooMuch(cold, held, address, content, maxBytes);
    }
  }

  // When all of `held` and the address fit, the address was not the next one below `held`.
  lemma NextIsTooMuch(cold: seq<string>, held: seq<string>, address: string, content: Content, maxBytes: nat)
    requires Drop(cold, address) != [] && cold != []
    requires Weight([cold[|cold| - 1]] + held, content) > maxBytes
    requires Weight(held + [address], content) <= maxBytes
    ensures Weight([Drop(cold, address)[|Drop(cold, address)| - 1]] + (held + [address]), content) > maxBytes
  {
    hide Weight;
    var x, y := cold[|cold| - 1], Drop(cold, address)[|Drop(cold, address)| - 1];
    LastKept(cold, address);
    WeightConcat([x], held, content);
    WeightConcat([y], held + [address], content);
    WeightConcat(held, [address], content);
    WeightOne(x, content);
    WeightOne(y, content);
    WeightOne(address, content);
  }

  lemma LastKept(cold: seq<string>, address: string)
    requires Drop(cold, address) != []
    ensures cold != [] && (cold[|cold| - 1] != address ==> Drop(cold, address)[|Drop(cold, address)| - 1] == cold[|cold| - 1])
  {
  }

  // -- The cache on entries --

  function Addresses(entries: seq<Entry>): seq<string> {
    seq(|entries|, i requires 0 <= i < |entries| => entries[i].address)
  }

  // The whole run stays within one time to live.
  ghost predicate Within(p: Policy, requests: seq<Request>) {
    forall i, j :: 0 <= i <= j < |requests| ==> requests[i].now <= requests[j].now < requests[i].now + p.ttl
  }

  ghost predicate Fresh(entries: seq<Entry>, now: int, content: Content) {
    forall e :: e in entries ==> e.expires > now && e.data == content(e.address)
  }

  lemma AddressesConcat(a: seq<Entry>, b: seq<Entry>)
    ensures Addresses(a + b) == Addresses(a) + Addresses(b)
  {
  }

  lemma {:induction false} TotalIsWeight(entries: seq<Entry>, now: int, content: Content)
    requires Fresh(entries, now, content)
    ensures Total(entries) == Weight(Addresses(entries), content)
  {
    if entries != [] {
      var front, last := entries[..|entries| - 1], entries[|entries| - 1];
      TotalIsWeight(front, now, content);
      SumAppend(Addresses(front), last.address, LengthOf(content));
      assert Addresses(entries) == Addresses(front) + [last.address];
    }
  }

  lemma WithoutIsDrop(entries: seq<Entry>, address: string)
    requires Distinct(entries)
    ensures Addresses(Without(entries, address)) == Drop(Addresses(entries), address)
  {
    hide Drop;
    var at := IndexOf(entries, address);
    if at.None? {
      AbsentDrop(entries, address);
    } else {
      var front, mid, back := entries[..at.value], [entries[at.value]], entries[at.value + 1..];
      assert entries == front + (mid + back);
      AddressesConcat(front, mid + back);
      AddressesConcat(mid, back);
      AddressesConcat(front, back);
      DropConcat(Addresses(front), Addresses(mid) + Addresses(back), address);
      DropConcat(Addresses(mid), Addresses(back), address);
      AbsentDrop(front, address);
      AbsentDrop(back, address);
      assert Drop(Addresses(mid), address) == [] by { DropItself(address); assert Addresses(mid) == [address]; }
    }
  }

  lemma DropItself(address: string)
    ensures Drop([address], address) == []
  {
  }

  lemma AbsentDrop(front: seq<Entry>, address: string)
    requires forall i :: 0 <= i < |front| ==> front[i].address != address
    ensures Drop(Addresses(front), address) == Addresses(front)
  {
    DropFacts(Addresses(front), address);
  }

  lemma {:induction false} TrimmedIsLongestFit(entries: seq<Entry>, now: int, content: Content, maxBytes: nat)
    requires Fresh(entries, now, content)
    ensures Addresses(Trimmed(entries, maxBytes)) == LongestFit(Addresses(entries), content, maxBytes)
  {
    TotalIsWeight(entries, now, content);
    if entries != [] && Total(entries) > maxBytes {
      TrimmedIsLongestFit(entries[1..], now, content, maxBytes);
      assert Addresses(entries)[1..] == Addresses(entries[1..]);
    }
  }

  lemma NothingPruned(entries: seq<Entry>, now: int, content: Content, n: nat)
    requires Fresh(entries, now, content)
    ensures Pruned(entries, now, n) == entries
  {
  }

  ghost predicate Agrees(p: Policy, entries: seq<Entry>, recency: seq<string>, now: int, content: Content) {
    && Bounded(p, entries)
    && Fresh(entries, now, content)
    && Addresses(entries) == LongestFit(recency, content, p.maxBytes)
  }

  lemma HitStep(p: Policy, entries: seq<Entry>, recency: seq<string>, r: Request, content: Content)
    requires Agrees(p, entries, recency, r.now, content) && Unique(recency) && !p.Disabled()
    requires Hit(p, entries, r.now, r.address).Some?
    ensures Agrees(p, Got(p, entries, r.now, r.address), Drop(recency, r.address) + [r.address], r.now, content)
  {
    hide Total, Without, Drop, LongestFit, Weight, Unique, Tail, IsLongestFit;
    var held := Addresses(entries);
    var at := IndexOf(entries, r.address);
    assert held[at.value] == r.address;
    LongestFitExact(recency, content, p.maxBytes);
    HeldStep(recency, held, r.address, content, p.maxBytes);
    LongestFitExact(Drop(recency, r.address) + [r.address], content, p.maxBytes);
    OneLongestFit(Drop(recency, r.address) + [r.address], Drop(held, r.address) + [r.address],
                  LongestFit(Drop(recency, r.address) + [r.address], content, p.maxBytes), content, p.maxBytes);
    GotKeeps(p, entries, r.now, r.address);
    WithoutIsDrop(entries, r.address);
    AddressesConcat(Without(entries, r.address), [entries[at.value]]);
  }

  lemma MissStep(p: Policy, entries: seq<Entry>, recency: seq<string>, r: Request, content: Content)
    requires Agrees(p, entries, recency, r.now, content) && !p.Disabled()
    requires Hit(p, entries, r.now, r.address).None?
    requires |content(r.address)| <= p.maxBytes
    ensures Got(p, entries, r.now, r.address) == entries
    ensures Agrees(p, Inserted(p, entries, r.now, r.address, content(r.address)), Drop(recency, r.address) + [r.address], r.now, content)
  {
    hide Total, Drop, LongestFit, Weight, Trimmed, Pruned, Tail, IsLongestFit;
    var held, data := Addresses(entries), content(r.address);
    NothingPruned(entries, r.now, content, PRUNED_AT_ONCE);
    InsertedKeeps(p, entries, r.now, r.address, data);
    assert IndexOf(entries, r.address).None?;
    assert Without(entries, r.address) == entries;
    var own := Entry(r.address, data, r.now + p.ttl);
    AddressesConcat(entries, [own]);
    assert Addresses([own]) == [r.address];
    TrimmedIsLongestFit(entries + [own], r.now, content, p.maxBytes);
    LongestFitExact(recency, content, p.maxBytes);
    MissedStep(recency, held, r.address, content, p.maxBytes);
    LongestFitExact(Drop(recency, r.address) + [r.address], content, p.maxBytes);
    OneLongestFit(Drop(recency, r.address) + [r.address], LongestFit(held + [r.address], content, p.maxBytes),
                  LongestFit(Drop(recency, r.address) + [r.address], content, p.maxBytes), content, p.maxBytes);
  }

  // Data larger than the cache is fetched each time and never stored.
  lemma RefusedStep(p: Policy, entries: seq<Entry>, r: Request, content: Content)
    requires Bounded(p, entries) && Fresh(entries, r.now, content) && !p.Disabled()
    requires |content(r.address)| > p.maxBytes
    ensures Served(p, entries, r, content) == entries
  {
    var at := IndexOf(entries, r.address);
    if at.Some? {
      OneAtMostAll(entries, at.value);
    }
    NothingPruned(entries, r.now, content, PRUNED_AT_ONCE);
  }

  lemma OneAtMostAll(entries: seq<Entry>, i: nat)
    requires i < |entries|
    ensures |entries[i].data| <= Total(entries)
  {
    assert entries == entries[..i] + ([entries[i]] + entries[i + 1..]);
    SumConcat(entries[..i], [entries[i]] + entries[i + 1..], SizeOf());
    SumConcat([entries[i]], entries[i + 1..], SizeOf());
    SumAppend([], entries[i], SizeOf());
    assert [] + [entries[i]] == [entries[i]];
  }

  ghost predicate AllFit(p: Policy, requests: seq<Request>, content: Content) {
    forall i :: 0 <= i < |requests| ==> |content(requests[i].address)| <= p.maxBytes
  }

  // Every entry was stored or refreshed by some request of the run, a time to live ago at most.
  ghost predicate FromRun(p: Policy, entries: seq<Entry>, requests: seq<Request>, content: Content) {
    forall e :: e in entries ==>
      e.data == content(e.address) && exists i :: 0 <= i < |requests| && e.expires == requests[i].now + p.ttl
  }

  lemma ServedFromRun(p: Policy, entries: seq<Entry>, requests: seq<Request>, content: Content)
    requires |requests| > 0
    requires Bounded(p, entries) && FromRun(p, entries, requests[..|requests| - 1], content)
    ensures FromRun(p, Served(p, entries, requests[|requests| - 1], content), requests, content)
  {
    hide Total, Got, Inserted, Pruned;
    var front, r := requests[..|requests| - 1], requests[|requests| - 1];
    GotKeeps(p, entries, r.now, r.address);
    var got := Got(p, entries, r.now, r.address);
    InsertedKeeps(p, got, r.now, r.address, content(r.address));
    forall e | e in Served(p, entries, r, content)
      ensures e.data == content(e.address) && exists i :: 0 <= i < |requests| && e.expires == requests[i].now + p.ttl
    {
      if e in entries {
        var i :| 0 <= i < |front| && e.expires == front[i].now + p.ttl;
        assert requests[i] == front[i];
      } else {
        assert e.expires == requests[|requests| - 1].now + p.ttl;
      }
    }
  }

  lemma RunFresh(p: Policy, entries: seq<Entry>, requests: seq<Request>, content: Content)
    requires |requests| > 0 && Within(p, requests) && FromRun(p, entries, requests[..|requests| - 1], content)
    ensures Fresh(entries, requests[|requests| - 1].now, content)
  {
    var front, last := requests[..|requests| - 1], requests[|requests| - 1];
    forall e | e in entries ensures e.expires > last.now && e.data == content(e.address) {
      var i :| 0 <= i < |front| && e.expires == front[i].now + p.ttl;
      assert front[i] == requests[i];
    }
  }

  // The theorem: after any run of requests within one time to live, the addresses held, least
  // recent first, are the longest end of the recency list that fits in the byte limit. Requests for
  // data larger than the cache change nothing.
  lemma {:induction false} HoldsLongestFit(p: Policy, requests: seq<Request>, content: Content)
    requires !p.Disabled() && Within(p, requests)
    ensures Addresses(ServedAll(p, requests, content)) == LongestFit(Recency(requests, content, p.maxBytes), content, p.maxBytes)
    ensures Bounded(p, ServedAll(p, requests, content)) && FromRun(p, ServedAll(p, requests, content), requests, content)
  {
    hide Total, Got, Inserted, Hit, LongestFit, Drop, Unique, FromRun, Fresh;
    if |requests| == 0 {
      EmptyRun(p, requests, content);
    } else {
      var front, r := requests[..|requests| - 1], requests[|requests| - 1];
      var before := ServedAll(p, front, content);
      HoldsLongestFit(p, front, content);
      RecencyUnique(front, content, p.maxBytes);
      RunFresh(p, before, requests, content);
      ServedFromRun(p, before, requests, content);
      if |content(r.address)| > p.maxBytes {
        RefusedStep(p, before, r, content);
      } else if Hit(p, before, r.now, r.address).Some? {
        HitStep(p, before, Recency(front, content, p.maxBytes), r, content);
      } else {
        MissStep(p, before, Recency(front, content, p.maxBytes), r, content);
      }
    }
  }

  lemma EmptyRun(p: Policy, requests: seq<Request>, content: Content)
    requires requests == []
    ensures Addresses(ServedAll(p, requests, content)) == LongestFit(Recency(requests, content, p.maxBytes), content, p.maxBytes)
    ensures Bounded(p, ServedAll(p, requests, content)) && FromRun(p, ServedAll(p, requests, content), requests, content)
  {
  }

  lemma {:induction false} FitGrows(addresses: seq<string>, content: Content, small: nat, large: nat)
    requires small <= large
    ensures Tail(LongestFit(addresses, content, large), LongestFit(addresses, content, small))
  {
    if addresses != [] && Weight(addresses, content) > small {
      FitGrows(addresses[1..], content, small, large);
      if Weight(addresses, content) <= large {
        LongestFitExact(addresses, content, small);
        LongestFitExact(addresses, content, large);
      }
    }
  }

  // A larger cache never misses where a smaller one hits: what the smaller holds is the recent end
  // of what the larger holds, as long as all the data requested fits the smaller.
  lemma {:induction false} LargerCacheContainsSmaller(p: Policy, q: Policy, requests: seq<Request>, content: Content)
    requires !p.Disabled() && p.maxBytes <= q.maxBytes && q.ttl == p.ttl
    requires Within(p, requests) && AllFit(p, requests, content)
    ensures Tail(Addresses(ServedAll(q, requests, content)), Addresses(ServedAll(p, requests, content)))
  {
    HoldsLongestFit(p, requests, content);
    HoldsLongestFit(q, requests, content);
    SameRecency(p, q.maxBytes, requests, content);
    FitGrows(Recency(requests, content, p.maxBytes), content, p.maxBytes, q.maxBytes);
  }

  lemma {:induction false} SameRecency(p: Policy, larger: nat, requests: seq<Request>, content: Content)
    requires AllFit(p, requests, content) && p.maxBytes <= larger
    ensures Recency(requests, content, larger) == Recency(requests, content, p.maxBytes)
  {
    hide Drop;
    if |requests| > 0 {
      SameRecency(p, larger, requests[..|requests| - 1], content);
    }
  }

  // Data that only the larger cache can hold pushes out what the smaller one keeps.

  const SHORT_THEN_LONG := [Request(0, "a"), Request(0, "b")]

  function ShortOrLong(a: string): Bytes {
    if a == "b" then [0, 0] else [0]
  }

  lemma RecencyOfTwo(maxBytes: nat)
    requires maxBytes > 0
    ensures Recency(SHORT_THEN_LONG, ShortOrLong, maxBytes) == if maxBytes == 1 then ["a"] else ["a", "b"]
  {
    var one := SHORT_THEN_LONG[..1];
    assert one == [Request(0, "a")] && one[..0] == [];
    assert Recency(one, ShortOrLong, maxBytes) == Drop([], "a") + ["a"] == ["a"];
    DropFacts(["a"], "b");
    assert "b" !in ["a"];
  }

  lemma {:induction false} LargeDataBreaksInclusion()
    ensures var p, q := Policy(1, 1), Policy(2, 1);
      && Within(p, SHORT_THEN_LONG)
      && Addresses(ServedAll(p, SHORT_THEN_LONG, ShortOrLong)) == ["a"]
      && Addresses(ServedAll(q, SHORT_THEN_LONG, ShortOrLong)) == ["b"]
  {
    hide Recency, Served, ServedAll, Weight, LongestFit, Addresses;
    RecencyOfTwo(1);
    RecencyOfTwo(2);
    HoldsLongestFit(Policy(1, 1), SHORT_THEN_LONG, ShortOrLong);
    HoldsLongestFit(Policy(2, 1), SHORT_THEN_LONG, ShortOrLong);
    WeightOne("a", ShortOrLong);
    WeightOne("b", ShortOrLong);
    WeightConcat(["a"], ["b"], ShortOrLong);
    FitIs(["a"], ["a"], 1);
    FitIs(["a", "b"], ["b"], 2);
  }

  lemma FitIs(addresses: seq<string>, fit: seq<string>, maxBytes: nat)
    requires IsLongestFit(addresses, fit, ShortOrLong, maxBytes)
    ensures LongestFit(addresses, ShortOrLong, maxBytes) == fit
  {
    LongestFitExact(addresses, ShortOrLong, maxBytes);
    OneLongestFit(addresses, fit, LongestFit(addresses, ShortOrLong, maxBytes), ShortOrLong, maxBytes);
  }
}
