// Video manifests of the streaming service: their structural check, which also sorts each
// variant's segments, and the lookup that depends on the order.
module Manifests {
  import opened Outcomes
  import opened Sums

  // Strings are bytes, as the length limits count them. Floating point is exact or not finite.
  datatype Float = Finite(value: real) | NotFinite

  datatype Segment = Segment(index: int, address: string, duration: Float)

  datatype Variant = Variant(resolution: string, segmentDuration: Float, segments: seq<Segment>)

  const MAX_SEGMENTS := 65_536
  const MAX_VARIANTS := 16

  predicate ValidDuration(d: Float) {
    d.Finite? && 0.0 < d.value <= 3600.0
  }

  predicate Alphanumeric(c: char) {
    '0' <= c <= '9' || 'a' <= c <= 'z' || 'A' <= c <= 'Z'
  }

  predicate SegmentOk(s: Segment) {
    && 0 <= s.index < MAX_SEGMENTS
    && ValidDuration(s.duration)
    && s.address != "" && |s.address| <= 128
    && (forall i :: 0 <= i < |s.address| ==> Alphanumeric(s.address[i]) || s.address[i] == '-')
  }

  predicate VariantHeadOk(v: Variant) {
    && v.resolution != "" && |v.resolution| <= 32
    && (forall i :: 0 <= i < |v.resolution| ==> Alphanumeric(v.resolution[i]))
    && ValidDuration(v.segmentDuration)
  }

  // -- What a manifest has to be, in whatever order its segments come --

  ghost predicate UniqueIndexes(segments: seq<Segment>) {
    forall i, j :: 0 <= i < j < |segments| ==> segments[i].index != segments[j].index
  }

  ghost predicate SegmentsOk(segments: seq<Segment>) {
    (forall i :: 0 <= i < |segments| ==> SegmentOk(segments[i])) && UniqueIndexes(segments)
  }

  function CountOf(): Variant -> nat {
    (v: Variant) => |v.segments|
  }

  ghost predicate VariantsOk(variants: seq<Variant>) {
    && (forall i :: 0 <= i < |variants| ==> VariantHeadOk(variants[i]) && SegmentsOk(variants[i].segments))
    && (forall i, j :: 0 <= i < j < |variants| ==> variants[i].resolution != variants[j].resolution)
    && Sum(variants, CountOf()) <= MAX_SEGMENTS
  }

  ghost predicate Acceptable(id: string, variants: seq<Variant>) {
    |id| <= 128 && |variants| <= MAX_VARIANTS && VariantsOk(variants)
  }

  // -- The stable sort by index --

  function Placed(sorted: seq<Segment>, s: Segment): seq<Segment> {
    if sorted == [] || sorted[|sorted| - 1].index <= s.index then sorted + [s]
    else Placed(sorted[..|sorted| - 1], s) + [sorted[|sorted| - 1]]
  }

  function ByIndex(segments: seq<Segment>): seq<Segment> {
    if segments == [] then [] else Placed(ByIndex(segments[..|segments| - 1]), segments[|segments| - 1])
  }

  ghost predicate Sorted(segments: seq<Segment>) {
    forall i, j :: 0 <= i < j < |segments| ==> segments[i].index <= segments[j].index
  }

  lemma {:induction false} PlacedMembers(sorted: seq<Segment>, s: Segment)
    ensures multiset(Placed(sorted, s)) == multiset(sorted) + multiset{s}
  {
    if sorted != [] && sorted[|sorted| - 1].index > s.index {
      PlacedMembers(sorted[..|sorted| - 1], s);
      assert sorted == sorted[..|sorted| - 1] + [sorted[|sorted| - 1]];
    }
  }

  lemma {:induction false} PlacedFacts(sorted: seq<Segment>, s: Segment)
    requires Sorted(sorted)
    ensures Sorted(Placed(sorted, s))
    ensures multiset(Placed(sorted, s)) == multiset(sorted) + multiset{s}
  {
    PlacedMembers(sorted, s);
    if sorted != [] && sorted[|sorted| - 1].index > s.index {
      var front, last := sorted[..|sorted| - 1], sorted[|sorted| - 1];
      PlacedFacts(front, s);
      PlacedMembers(front, s);
      var p := Placed(front, s);
      forall i | 0 <= i < |p| ensures p[i].index <= last.index {
        assert p[i] in multiset(p);
        assert p[i] in multiset(front) || p[i] == s;
      }
    }
  }

  lemma {:induction false} ByIndexFacts(segments: seq<Segment>)
    ensures Sorted(ByIndex(segments))
    ensures multiset(ByIndex(segments)) == multiset(segments)
  {
    hide Sorted, Placed;
    if segments == [] {
      EmptySorted();
    } else {
      var front, last := segments[..|segments| - 1], segments[|segments| - 1];
      ByIndexFacts(front);
      PlacedFacts(ByIndex(front), last);
      assert segments == front + [last];
    }
  }

  lemma EmptySorted()
    ensures Sorted([])
  {
  }

  // -- The check does not depend on the order --

  lemma Twice(segments: seq<Segment>, i: nat, j: nat)
    requires i < j < |segments| && segments[i] == segments[j]
    ensures multiset(segments)[segments[i]] >= 2
  {
    var a, b := segments[..j], segments[j..];
    assert segments == a + b;
    assert a[i] in multiset(a) && b[0] in multiset(b);
  }

  lemma {:induction false} TwicePlaces(segments: seq<Segment>, s: Segment) returns (i: nat, j: nat)
    requires multiset(segments)[s] >= 2
    ensures i < j < |segments| && segments[i] == s == segments[j]
  {
    var front, last := segments[..|segments| - 1], segments[|segments| - 1];
    assert segments == front + [last];
    if last == s {
      assert s in multiset(front);
      i :| 0 <= i < |front| && front[i] == s;
      j := |segments| - 1;
    } else {
      i, j := TwicePlaces(front, s);
    }
  }

  lemma DistinctMembers(segments: seq<Segment>, s: Segment, t: Segment)
    requires UniqueIndexes(segments) && s in segments && t in segments && s != t
    ensures s.index != t.index
  {
    var i :| 0 <= i < |segments| && segments[i] == s;
    var j :| 0 <= j < |segments| && segments[j] == t;
    assert i < j || j < i;
  }

  lemma UniquePermuted(a: seq<Segment>, b: seq<Segment>)
    requires multiset(a) == multiset(b) && UniqueIndexes(a)
    ensures UniqueIndexes(b)
  {
    forall i, j | 0 <= i < j < |b| ensures b[i].index != b[j].index {
      if b[i] == b[j] {
        Twice(b, i, j);
        var x, y := TwicePlaces(a, b[i]);
      } else {
        assert b[i] in multiset(a) && b[j] in multiset(a);
        DistinctMembers(a, b[i], b[j]);
      }
    }
  }

  lemma SegmentsPermuted(a: seq<Segment>, b: seq<Segment>)
    requires multiset(a) == multiset(b)
    ensures SegmentsOk(a) <==> SegmentsOk(b)
  {
    SegmentsOneWay(a, b);
    SegmentsOneWay(b, a);
  }

  lemma SegmentsOneWay(a: seq<Segment>, b: seq<Segment>)
    requires multiset(a) == multiset(b)
    ensures SegmentsOk(a) ==> SegmentsOk(b)
  {
    if SegmentsOk(a) {
      UniquePermuted(a, b);
      forall i | 0 <= i < |b| ensures SegmentOk(b[i]) {
        assert b[i] in multiset(a);
      }
    }
  }

  // Two manifests that differ only in the order of their variants' segments.
  ghost predicate Reordered(a: seq<Variant>, b: seq<Variant>) {
    |a| == |b| && forall i :: 0 <= i < |a| ==>
      b[i] == a[i].(segments := b[i].segments) && multiset(b[i].segments) == multiset(a[i].segments)
  }

  lemma ReorderedSame(a: seq<Variant>, b: seq<Variant>)
    requires Reordered(a, b)
    ensures VariantsOk(a) ==> VariantsOk(b)
  {
    if VariantsOk(a) {
      forall i | 0 <= i < |b| ensures VariantHeadOk(b[i]) && SegmentsOk(b[i].segments) {
        SegmentsPermuted(a[i].segments, b[i].segments);
      }
      CountsSame(a, b);
    }
  }

  lemma {:induction false} CountsSame(a: seq<Variant>, b: seq<Variant>)
    requires Reordered(a, b)
    ensures Sum(a, CountOf()) == Sum(b, CountOf())
  {
    if |a| > 0 {
      CountsSame(a[..|a| - 1], b[..|b| - 1]);
      assert |multiset(a[|a| - 1].segments)| == |multiset(b[|b| - 1].segments)|;
    }
  }

  lemma AcceptanceIgnoresOrder(id: string, a: seq<Variant>, b: seq<Variant>)
    requires Reordered(a, b)
    ensures Acceptable(id, a) <==> Acceptable(id, b)
  {
    ReorderedSame(a, b);
    ReorderedSame(b, a);
  }

  // What every accepted manifest is bounded by: at most 16 variants, 65,536 segments in all, none longer
  // than an hour, one variant to a resolution, and names and addresses that hold no separator, dot, quote or line break.
  lemma {:induction false} AcceptedIsBounded(id: string, variants: seq<Variant>, i: nat, j: nat)
    requires Acceptable(id, variants) && i < |variants|
    ensures |id| <= 128 && |variants| <= 16 && |variants[i].segments| <= 65_536
    ensures 0 < |variants[i].resolution| <= 32 && PlainName(variants[i].resolution) && '-' !in variants[i].resolution
    ensures forall k :: 0 <= k < |variants| && variants[k].resolution == variants[i].resolution ==> k == i
    ensures variants[i].segmentDuration.Finite? && 0.0 < variants[i].segmentDuration.value <= 3600.0
    ensures j < |variants[i].segments| ==>
      var s := variants[i].segments[j];
      && 0 <= s.index <= 65_535
      && 0 < |s.address| <= 128 && PlainName(s.address)
      && s.duration.Finite? && 0.0 < s.duration.value <= 3600.0
  {
    CountPrefix(variants, i + 1);
    assert variants[..i + 1] == variants[..i] + [variants[i]];
    SumAppend(variants[..i], variants[i], CountOf());
    PlainLetters(variants[i].resolution);
    if j < |variants[i].segments| {
      assert SegmentOk(variants[i].segments[j]);
      PlainLetters(variants[i].segments[j].address);
    }
  }

  predicate PlainName(s: string) {
    forall c :: c in s ==> c !in "/.:?#%&\\\"'\r\n "
  }

  lemma PlainLetters(s: string)
    requires forall i :: 0 <= i < |s| ==> Alphanumeric(s[i]) || s[i] == '-'
    ensures PlainName(s)
  {
  }

  // -- The check --

  function Indexed(v: Variant): Variant {
    v.(segments := ByIndex(v.segments))
  }

  function AllIndexed(variants: seq<Variant>): seq<Variant> {
    seq(|variants|, i requires 0 <= i < |variants| => Indexed(variants[i]))
  }

  // The scan over sorted segments compares neighbours only.
  method CheckSegments(segments: seq<Segment>) returns (ok: bool)
    requires Sorted(segments)
    ensures ok <==> SegmentsOk(segments)
  {
    var previous: Option<int> := None;
    for j := 0 to |segments|
      invariant previous == if j == 0 then None else Some(segments[j - 1].index)
      invariant forall k :: 0 <= k < j ==> SegmentOk(segments[k])
      invariant forall k, m :: 0 <= k < m < j ==> segments[k].index < segments[m].index
    {
      if !SegmentOk(segments[j]) || previous == Some(segments[j].index) {
        return false;
      }
      previous := Some(segments[j].index);
    }
    ok := true;
  }

  lemma {:induction false} CountPrefix(variants: seq<Variant>, i: nat)
    requires i <= |variants|
    ensures Sum(variants[..i], CountOf()) <= Sum(variants, CountOf())
  {
    assert variants == variants[..i] + variants[i..];
    SumConcat(variants[..i], variants[i..], CountOf());
  }

  // The variants before `i` pass, counted and with their resolutions collected.
  ghost predicate Passed(variants: seq<Variant>, i: nat, count: nat, resolutions: set<string>)
    requires i <= |variants|
  {
    && (forall k :: 0 <= k < i ==> VariantHeadOk(variants[k]) && SegmentsOk(variants[k].segments))
    && (forall j, k :: 0 <= j < k < i ==> variants[j].resolution != variants[k].resolution)
    && (forall k :: 0 <= k < i ==> variants[k].resolution in resolutions)
    && (forall r :: r in resolutions ==> exists k :: 0 <= k < i && variants[k].resolution == r)
    && count == Sum(variants[..i], CountOf()) <= MAX_SEGMENTS
  }

  lemma PassedOne(variants: seq<Variant>, i: nat, count: nat, resolutions: set<string>)
    requires i < |variants| && Passed(variants, i, count, resolutions)
    requires VariantHeadOk(variants[i]) && SegmentsOk(variants[i].segments)
    requires variants[i].resolution !in resolutions && count + |variants[i].segments| <= MAX_SEGMENTS
    ensures Passed(variants, i + 1, count + |variants[i].segments|, resolutions + {variants[i].resolution})
  {
    assert variants[..i + 1] == variants[..i] + [variants[i]];
    SumAppend(variants[..i], variants[i], CountOf());
  }

  lemma Failed(variants: seq<Variant>, i: nat, count: nat, resolutions: set<string>)
    requires i < |variants| && Passed(variants, i, count, resolutions)
    requires !VariantHeadOk(variants[i]) || !SegmentsOk(variants[i].segments)
      || variants[i].resolution in resolutions || count + |variants[i].segments| > MAX_SEGMENTS
    ensures !VariantsOk(variants)
  {
    hide SegmentsOk, VariantHeadOk;
    assert variants[..i + 1] == variants[..i] + [variants[i]];
    SumAppend(variants[..i], variants[i], CountOf());
    CountPrefix(variants, i + 1);
    if variants[i].resolution in resolutions {
      var k :| 0 <= k < i && variants[k].resolution == variants[i].resolution;
    }
  }

  class VideoManifest {
    var id: string
    var status: string
    var variants: seq<Variant>

    constructor (id: string, status: string, variants: seq<Variant>)
      ensures this.id == id && this.status == status && this.variants == variants
    {
      this.id, this.status, this.variants := id, status, variants;
    }

    // Accepts exactly the acceptable manifests, and leaves an accepted one sorted.
    method IndexSegments() returns (r: Result<(), string>)
      modifies this`variants
      ensures r.Ok? <==> Acceptable(id, old(variants))
      ensures r.Ok? ==> variants == AllIndexed(old(variants))
    {
      if |id| > 128 || |variants| > MAX_VARIANTS {
        return Err("manifest exceeds structural limits");
      }
      hide SegmentsOk, VariantHeadOk, Indexed, VariantsOk, Passed, HalfIndexed, AllIndexed;
      ghost var before := variants;
      var count: nat := 0;
      var resolutions: set<string> := {};
      NothingPassed(before);
      assert HalfIndexed(before, variants, 0) by { NothingIndexed(before); }
      for i := 0 to |variants|
        invariant |variants| == |before| && HalfIndexed(before, variants, i)
        invariant Passed(before, i, count, resolutions)
      {
        var size := |variants[i].segments|;
        var ok, v := IndexVariant(variants[i], count, resolutions);
        HalfStep(before, variants, i);
        variants := variants[i := v];
        if !ok {
          Failed(before, i, count, resolutions);
          return Err("invalid manifest");
        }
        PassedOne(before, i, count, resolutions);
        count, resolutions := count + size, resolutions + {v.resolution};
      }
      AllPassed(before, count, resolutions);
      HalfDone(before, variants);
      r := Ok(());
    }

    // The body of the loop over variants: the checks in order, with the sort between them.
    static method IndexVariant(v: Variant, count: nat, resolutions: set<string>) returns (ok: bool, indexed: Variant)
      ensures ok <==> count + |v.segments| <= MAX_SEGMENTS && v.resolution !in resolutions && VariantHeadOk(v) && SegmentsOk(v.segments)
      ensures indexed.resolution == v.resolution && indexed in {v, Indexed(v)} && (ok ==> indexed == Indexed(v))
    {
      if count + |v.segments| > MAX_SEGMENTS || v.resolution in resolutions || !VariantHeadOk(v) {
        return false, v;
      }
      ByIndexFacts(v.segments);
      SegmentsPermuted(v.segments, ByIndex(v.segments));
      indexed := Indexed(v);
      ok := CheckSegments(indexed.segments);
    }
  }

  ghost predicate HalfIndexed(before: seq<Variant>, variants: seq<Variant>, i: nat) {
    |variants| == |before| && forall k :: 0 <= k < |before| ==> variants[k] == if k < i then Indexed(before[k]) else before[k]
  }

  lemma HalfStep(before: seq<Variant>, variants: seq<Variant>, i: nat)
    requires i < |before| && HalfIndexed(before, variants, i)
    ensures variants[i] == before[i] && HalfIndexed(before, variants[i := Indexed(before[i])], i + 1)
  {
  }

  lemma NothingIndexed(before: seq<Variant>)
    ensures HalfIndexed(before, before, 0)
  {
  }

  lemma HalfDone(before: seq<Variant>, variants: seq<Variant>)
    requires HalfIndexed(before, variants, |before|)
    ensures variants == AllIndexed(before)
  {
  }

  lemma NothingPassed(variants: seq<Variant>)
    ensures Passed(variants, 0, 0, {})
  {
    assert variants[..0] == [];
  }

  lemma AllPassed(variants: seq<Variant>, count: nat, resolutions: set<string>)
    requires Passed(variants, |variants|, count, resolutions)
    ensures VariantsOk(variants)
  {
    assert variants[..|variants|] == variants;
  }

  // -- Lookup --

  // The address of the first segment with this index, wherever it is.
  function Scan(segments: seq<Segment>, index: int): Option<string> {
    if segments == [] then None
    else if segments[0].index == index then Some(segments[0].address)
    else Scan(segments[1..], index)
  }

  // `segment_address` halves a range that must hold the index.
  method SegmentAddress(v: Variant, index: int) returns (address: Option<string>)
    requires Sorted(v.segments)
    ensures address.Some? ==> exists k :: 0 <= k < |v.segments| && v.segments[k].index == index && address == Some(v.segments[k].address)
    ensures address.None? ==> forall k :: 0 <= k < |v.segments| ==> v.segments[k].index != index
  {
    var lo, hi := 0, |v.segments|;
    while lo < hi
      invariant 0 <= lo <= hi <= |v.segments|
      invariant forall k :: 0 <= k < lo ==> v.segments[k].index < index
      invariant forall k :: hi <= k < |v.segments| ==> v.segments[k].index > index
    {
      var mid := lo + (hi - lo) / 2;
      if v.segments[mid].index == index {
        return Some(v.segments[mid].address);
      } else if v.segments[mid].index < index {
        lo := mid + 1;
      } else {
        hi := mid;
      }
    }
    address := None;
  }

  lemma {:induction false} ScanFinds(segments: seq<Segment>, index: int)
    ensures Scan(segments, index).None? <==> forall k :: 0 <= k < |segments| ==> segments[k].index != index
    ensures UniqueIndexes(segments) ==> forall k :: 0 <= k < |segments| && segments[k].index == index ==>
      Scan(segments, index) == Some(segments[k].address)
  {
    if segments != [] {
      ScanFinds(segments[1..], index);
      forall k | 0 <= k < |segments| && segments[k].index == index && UniqueIndexes(segments)
        ensures Scan(segments, index) == Some(segments[k].address)
      {
        if k > 0 {
          assert segments[1..][k - 1] == segments[k];
          assert UniqueIndexes(segments[1..]);
        }
      }
      if forall k :: 0 <= k < |segments| ==> segments[k].index != index {
        assert forall k :: 0 <= k < |segments[1..]| ==> segments[1..][k] == segments[k + 1];
      }
    }
  }

  // Looking a sorted manifest up finds what a scan of the manifest as it arrived would.
  lemma ScanIgnoresOrder(segments: seq<Segment>, index: int)
    requires SegmentsOk(segments)
    ensures Scan(ByIndex(segments), index) == Scan(segments, index)
  {
    var sorted := ByIndex(segments);
    ByIndexFacts(segments);
    SegmentsPermuted(segments, sorted);
    ScanFinds(segments, index);
    ScanFinds(sorted, index);
    forall k | 0 <= k < |segments| ensures segments[k] in sorted {
      assert segments[k] in multiset(sorted);
    }
    forall k | 0 <= k < |sorted| ensures sorted[k] in segments {
      assert sorted[k] in multiset(segments);
    }
  }

  method FindAddress(v: Variant, index: int, ghost original: Variant) returns (address: Option<string>)
    requires SegmentsOk(original.segments) && v == Indexed(original)
    ensures address == Scan(original.segments, index)
  {
    ByIndexFacts(original.segments);
    SegmentsPermuted(original.segments, v.segments);
    ScanIgnoresOrder(original.segments, index);
    ScanFinds(v.segments, index);
    address := SegmentAddress(v, index);
  }
}
