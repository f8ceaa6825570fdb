// HLS playlists: rendering an indexed manifest, and what a player that reads the text back asks for.
module Playlists {
  import opened Outcomes
  import opened Amounts
  import opened Manifests

  // -- Numbers --

  function Ceiling(r: real): int {
    if r.Floor as real == r then r.Floor else r.Floor + 1
  }

  // Rounding to the nearest integer, ties to even, as `{:.3}` rounds thousandths.
  function Rounded(r: real): int {
    var low := r.Floor;
    var rest := r - low as real;
    if rest < 0.5 || (rest == 0.5 && low % 2 == 0) then low else low + 1
  }

  function Millis(seconds: real): int {
    Rounded(1000.0 * seconds)
  }

  lemma RoundedBelow(r: real, n: int)
    requires r <= n as real
    ensures Rounded(r) <= n
  {
  }

  function Larger(a: real, b: real): real {
    if a >= b then a else b
  }

  // fold(segment_duration, f64::max) over durations that are all finite once indexed
  function Longest(start: real, segments: seq<Segment>): real {
    if segments == [] then start
    else
      var last := segments[|segments| - 1].duration;
      Larger(Longest(start, segments[..|segments| - 1]), if last.Finite? then last.value else start)
  }

  function Target(v: Variant): int {
    Ceiling(Longest(if v.segmentDuration.Finite? then v.segmentDuration.value else 0.0, v.segments))
  }

  lemma {:induction false} LongestBounds(start: real, segments: seq<Segment>)
    ensures start <= Longest(start, segments)
    ensures forall i :: 0 <= i < |segments| && segments[i].duration.Finite? ==> segments[i].duration.value <= Longest(start, segments)
    ensures Longest(start, segments) == start
      || exists i :: 0 <= i < |segments| && segments[i].duration == Finite(Longest(start, segments))
  {
    if segments != [] {
      LongestBounds(start, segments[..|segments| - 1]);
    }
  }

  // The target duration is the least whole number of seconds that no duration exceeds, so every
  // EXTINF, rounded to milliseconds, is at most the target, as section 4.3.3.1 of RFC 8216 asks.
  lemma TargetIsLeast(v: Variant, i: nat)
    requires VariantHeadOk(v) && SegmentsOk(v.segments) && i < |v.segments|
    ensures Millis(v.segments[i].duration.value) <= 1000 * Target(v)
    ensures v.segmentDuration.value <= Target(v) as real
    ensures v.segmentDuration.value > (Target(v) - 1) as real
      || exists k :: 0 <= k < |v.segments| && v.segments[k].duration.value > (Target(v) - 1) as real
  {
    var top := Longest(v.segmentDuration.value, v.segments);
    LongestBounds(v.segmentDuration.value, v.segments);
    assert SegmentOk(v.segments[i]);
    RoundedBelow(1000.0 * v.segments[i].duration.value, 1000 * Target(v));
    if top != v.segmentDuration.value {
      var k :| 0 <= k < |v.segments| && v.segments[k].duration == Finite(top);
      assert SegmentOk(v.segments[k]) && v.segments[k].duration.value > (Target(v) - 1) as real;
    }
  }

  // -- The text --

  function Thousandths(n: nat): string
    requires n < 1000
  {
    [DigitChar(n / 100), DigitChar(n / 10 % 10), DigitChar(n % 10)]
  }

  function SecondsText(seconds: real): string {
    var n := Millis(seconds);
    if n < 0 then "-" else Digits(n / 1000) + "." + Thousandths(n % 1000)
  }

  function Info(s: Segment): string {
    "#EXTINF:" + (if s.duration.Finite? then SecondsText(s.duration.value) else "NaN") + ","
  }

  // "{prefix}/{index}.ts", where the prefix is the stream's route.
  function Url(prefix: string, index: int): string {
    prefix + "/" + (if index < 0 then "-" + Digits(-index) else Digits(index)) + ".ts"
  }

  function HeaderLines(target: int): seq<string> {
    ["#EXTM3U", "#EXT-X-VERSION:3", "#EXT-X-PLAYLIST-TYPE:VOD", "#EXT-X-INDEPENDENT-SEGMENTS",
     "#EXT-X-TARGETDURATION:" + (if target < 0 then "0" else Digits(target)), "#EXT-X-MEDIA-SEQUENCE:0"]
  }

  function BodyLines(segments: seq<Segment>, prefix: string): seq<string> {
    if segments == [] then [] else [Info(segments[0]), Url(prefix, segments[0].index)] + BodyLines(segments[1..], prefix)
  }

  function PlaylistLines(v: Variant, prefix: string): seq<string> {
    HeaderLines(Target(v)) + BodyLines(v.segments, prefix) + ["#EXT-X-ENDLIST"]
  }

  function Text(lines: seq<string>): string {
    if lines == [] then "" else lines[0] + "\n" + Text(lines[1..])
  }

  lemma {:induction false} TextConcat(a: seq<string>, b: seq<string>)
    ensures Text(a + b) == Text(a) + Text(b)
  {
    if a == [] {
      assert a + b == b;
    } else {
      TextConcat(a[1..], b);
      assert (a + b)[1..] == a[1..] + b;
    }
  }

  lemma {:induction false} BodyConcat(a: seq<Segment>, b: seq<Segment>, prefix: string)
    ensures BodyLines(a + b, prefix) == BodyLines(a, prefix) + BodyLines(b, prefix)
  {
    hide Info, Url;
    if a == [] {
      assert a + b == b;
    } else {
      BodyConcat(a[1..], b, prefix);
      assert (a + b)[1..] == a[1..] + b;
    }
  }

  lemma TwoLines(a: string, b: string)
    ensures Text([a, b]) == a + "\n" + b + "\n"
  {
    TextConcat([a], [b]);
    LastLine(a);
    LastLine(b);
    assert [a] + [b] == [a, b];
  }

  method RenderManifest(status: string, variants: seq<Variant>, resolution: string, prefix: string) returns (r: Result<string, string>)
    requires VariantsOk(variants)
    ensures r.Ok? <==> status == "ready" && exists i :: 0 <= i < |variants| && variants[i].resolution == resolution && variants[i].segments != []
    ensures r.Ok? ==> exists i :: 0 <= i < |variants| && variants[i].resolution == resolution && r.value == Text(PlaylistLines(variants[i], prefix))
  {
    hide Text, Target, Info, Url, HeaderLines;
    if status != "ready" {
      return Err("video not ready");
    }
    var at := 0;
    while at < |variants| && variants[at].resolution != resolution
      invariant 0 <= at <= |variants|
      invariant forall k :: 0 <= k < at ==> variants[k].resolution != resolution
    {
      at := at + 1;
    }
    if at == |variants| {
      return Err("variant not found");
    }
    var v := variants[at];
    if v.segments == [] {
      return Err("no segments found");
    }
    var m3u8 := Text(HeaderLines(Target(v)));
    assert HeaderLines(Target(v)) + BodyLines([], prefix) == HeaderLines(Target(v));
    assert v.segments[..0] == [];
    for i := 0 to |v.segments|
      invariant m3u8 == Text(HeaderLines(Target(v)) + BodyLines(v.segments[..i], prefix))
    {
      var s := v.segments[i];
      AppendSegment(HeaderLines(Target(v)), v.segments, i, prefix);
      m3u8 := m3u8 + (Info(s) + "\n" + Url(prefix, s.index) + "\n");
    }
    assert v.segments[..|v.segments|] == v.segments;
    TextConcat(HeaderLines(Target(v)) + BodyLines(v.segments, prefix), ["#EXT-X-ENDLIST"]);
    LastLine("#EXT-X-ENDLIST");
    r := Ok(m3u8 + "#EXT-X-ENDLIST\n");
  }

  lemma LastLine(line: string)
    ensures Text([line]) == line + "\n"
  {
    assert [line][1..] == [];
  }

  lemma AppendSegment(header: seq<string>, segments: seq<Segment>, i: nat, prefix: string)
    requires i < |segments|
    ensures Text(header + BodyLines(segments[..i + 1], prefix))
      == Text(header + BodyLines(segments[..i], prefix)) + (Info(segments[i]) + "\n" + Url(prefix, segments[i].index) + "\n")
  {
    hide Text, Info, Url;
    var one := [segments[i]];
    assert segments[..i + 1] == segments[..i] + one;
    BodyConcat(segments[..i], one, prefix);
    assert BodyLines(one, prefix) == [Info(segments[i]), Url(prefix, segments[i].index)] by { assert one[1..] == []; }
    assert header + BodyLines(segments[..i + 1], prefix) == (header + BodyLines(segments[..i], prefix)) + BodyLines(one, prefix);
    TextConcat(header + BodyLines(segments[..i], prefix), BodyLines(one, prefix));
    TwoLines(Info(segments[i]), Url(prefix, segments[i].index));
  }

  // -- Reading it back --

  function LineEnd(text: string): (k: nat)
    ensures k <= |text|
  {
    if text == "" || text[0] == '\n' then 0 else 1 + LineEnd(text[1..])
  }

  function Lines(text: string): seq<string> {
    if text == "" then []
    else
      var k := LineEnd(text);
      if k == |text| then [text] else [text[..k]] + Lines(text[k + 1..])
  }

  predicate OneLine(s: string) {
    forall i :: 0 <= i < |s| ==> s[i] != '\n'
  }

  lemma {:induction false} LineEndIs(line: string, rest: string)
    requires OneLine(line)
    ensures LineEnd(line + "\n" + rest) == |line|
  {
    var text := line + "\n" + rest;
    if line != "" {
      LineEndIs(line[1..], rest);
      assert text[1..] == line[1..] + "\n" + rest;
    }
  }

  lemma {:induction false} LinesOfText(lines: seq<string>)
    requires forall i :: 0 <= i < |lines| ==> OneLine(lines[i])
    ensures Lines(Text(lines)) == lines
  {
    if lines != [] {
      var rest := Text(lines[1..]);
      LineEndIs(lines[0], rest);
      LinesOfText(lines[1..]);
      var text := lines[0] + "\n" + rest;
      assert text[..|lines[0]|] == lines[0] && text[|lines[0]| + 1..] == rest;
    }
  }

  // -- Numbers, as a player reads them --

  // The first place of a character, or the end.
  function IndexIn(s: string, c: char): (k: nat)
    ensures k <= |s|
  {
    if s == "" || s[0] == c then 0 else 1 + IndexIn(s[1..], c)
  }

  function TenTo(n: nat): nat {
    if n == 0 then 1 else 10 * TenTo(n - 1)
  }

  // Digits, and after a point as many more (section 4.2 of RFC 8216).
  function Decimal(text: string): Option<real> {
    var point := IndexIn(text, '.');
    var whole, rest := text[..point], if point < |text| then text[point + 1..] else "";
    if whole != "" && AllDigits(whole) && AllDigits(rest) && TenTo(|rest|) != 0
    then Some(Value(whole) as real + Value(rest) as real / TenTo(|rest|) as real) else None
  }

  // The duration between "#EXTINF:" and the comma.
  function DurationOf(line: string): Option<real> {
    if IsInfo(line) then Decimal(line[8..][..IndexIn(line[8..], ',')]) else None
  }

  const TARGET_TAG := "#EXT-X-TARGETDURATION:"

  function TargetOf(lines: seq<string>): Option<nat> {
    if lines == [] then None
    else if |lines[0]| > 22 && lines[0][..22] == TARGET_TAG && AllDigits(lines[0][22..]) then Some(Value(lines[0][22..]))
    else TargetOf(lines[1..])
  }

  lemma {:induction false} IndexAfter(front: string, c: char, back: string)
    requires forall i :: 0 <= i < |front| ==> front[i] != c
    ensures IndexIn(front + [c] + back, c) == |front|
  {
    var s := front + [c] + back;
    if front != "" {
      IndexAfter(front[1..], c, back);
      assert s[1..] == front[1..] + [c] + back;
    }
  }

  lemma ThousandthsValue(n: nat)
    requires n < 1000
    ensures AllDigits(Thousandths(n)) && |Thousandths(n)| == 3 && Value(Thousandths(n)) == n
  {
    var t := Thousandths(n);
    assert t[..2][..1] == t[..1] && t[..1][..0] == "";
    assert Value(t[..1]) == n / 100;
    assert Value(t[..2]) == 10 * (n / 100) + n / 10 % 10;
    assert n == 100 * (n / 100) + 10 * (n / 10 % 10) + n % 10;
  }

  // What is written with three decimals is read as that many thousandths.
  lemma SecondsRead(seconds: real)
    requires Millis(seconds) >= 0
    ensures Decimal(SecondsText(seconds)) == Some(Millis(seconds) as real / 1000.0)
  {
    var n := Millis(seconds);
    var whole, rest := Digits(n / 1000), Thousandths(n % 1000);
    DigitsValue(n / 1000);
    ThousandthsValue(n % 1000);
    var text := whole + "." + rest;
    IndexAfter(whole, '.', rest);
    assert text[..|whole|] == whole && text[|whole| + 1..] == rest;
    assert TenTo(3) == 1000 by { assert TenTo(0) == 1 && TenTo(1) == 10 && TenTo(2) == 100; }
    ThousandthParts(n);
  }

  lemma ThousandthParts(n: nat)
    ensures (n / 1000) as real + (n % 1000) as real / 1000.0 == n as real / 1000.0
  {
    var a, b := n / 1000, n % 1000;
    assert n == 1000 * a + b;
    assert n as real == 1000.0 * a as real + b as real;
  }

  // The thousandth of a second nearest to a duration, the even one of two.
  ghost predicate NearestThousandth(read: real, duration: real) {
    var n := (1000.0 * read).Floor;
    && 1000.0 * read == n as real
    && n as real - 0.5 <= 1000.0 * duration <= n as real + 0.5
    && (1000.0 * duration == n as real - 0.5 || 1000.0 * duration == n as real + 0.5 ==> n % 2 == 0)
  }

  lemma MillisNearest(duration: real)
    ensures NearestThousandth(Millis(duration) as real / 1000.0, duration)
  {
    var n := Millis(duration);
    assert 1000.0 * (n as real / 1000.0) == n as real;
    var low := (1000.0 * duration).Floor;
    assert low as real <= 1000.0 * duration < low as real + 1.0;
  }

  lemma MillisPositive(duration: real)
    requires duration > 0.0
    ensures Millis(duration) >= 0
  {
  }

  // The EXTINF line of a segment is read as its duration to the nearest thousandth.
  lemma InfoRead(s: Segment)
    requires SegmentOk(s)
    ensures IsInfo(Info(s))
    ensures DurationOf(Info(s)) == Some(Millis(s.duration.value) as real / 1000.0)
    ensures NearestThousandth(Millis(s.duration.value) as real / 1000.0, s.duration.value)
  {
    var text := SecondsText(s.duration.value);
    MillisPositive(s.duration.value);
    SecondsDigits(s.duration.value);
    SecondsRead(s.duration.value);
    MillisNearest(s.duration.value);
    hide SecondsText, Decimal, Millis;
    var line := Info(s);
    assert line == "#EXTINF:" + text + ",";
    assert line[..8] == "#EXTINF:" && line[8..] == text + [','] + "";
    IndexAfter(text, ',', "");
    assert (text + [','] + "")[..|text|] == text;
  }

  lemma SecondsDigits(seconds: real)
    requires Millis(seconds) >= 0
    ensures forall i :: 0 <= i < |SecondsText(seconds)| ==> SecondsText(seconds)[i] != ','
  {
    var n := Millis(seconds);
    DigitsValue(n / 1000);
    ThousandthsValue(n % 1000);
  }

  // So is the target duration, from the header.
  lemma TargetRead(target: nat, rest: seq<string>)
    ensures TargetOf(HeaderLines(target) + rest) == Some(target)
  {
    var lines := HeaderLines(target) + rest;
    DigitsValue(target);
    var line := lines[4];
    assert line == TARGET_TAG + Digits(target);
    assert line[..22] == TARGET_TAG && line[22..] == Digits(target);
    NotTarget(lines[0]);
    NotTarget(lines[1]);
    NotTarget(lines[2]);
    NotTarget(lines[3]);
    SkipLine(lines);
    SkipLine(lines[1..]);
    SkipLine(lines[2..]);
    SkipLine(lines[3..]);
    assert lines[1..][1..] == lines[2..] && lines[2..][1..] == lines[3..] && lines[3..][1..] == lines[4..];
    assert lines[4..][0] == line;
  }

  lemma NotTarget(line: string)
    ensures |line| > 7 && line[7] != 'T' ==> !(|line| > 22 && line[..22] == TARGET_TAG)
  {
    assert |line| > 22 ==> line[..22][7] == line[7];
    assert TARGET_TAG[7] == 'T';
  }

  lemma SkipLine(lines: seq<string>)
    requires lines != [] && !(|lines[0]| > 22 && lines[0][..22] == TARGET_TAG)
    ensures TargetOf(lines) == TargetOf(lines[1..])
  {
  }

  // What a player plays: each EXTINF line with the URI line after it.
  datatype Entry = Entry(info: string, url: string)

  predicate IsInfo(line: string) {
    |line| >= 8 && line[..8] == "#EXTINF:"
  }

  function Entries(lines: seq<string>): seq<Entry> {
    if |lines| < 2 then []
    else if IsInfo(lines[0]) then [Entry(lines[0], lines[1])] + Entries(lines[2..])
    else Entries(lines[1..])
  }

  // The last path segment of a URL, which the router hands to the segment route.
  function LastSegment(url: string): string {
    if url == "" || url[|url| - 1] == '/' then "" else LastSegment(url[..|url| - 1]) + [url[|url| - 1]]
  }

  // trim_end_matches(".ts")
  function Trimmed(s: string): string {
    if |s| >= 3 && s[|s| - 3..] == ".ts" then Trimmed(s[..|s| - 3]) else s
  }

  const I32_LIMIT := 0x8000_0000

  // str::parse::<i32>
  function ParseI32(s: string): (r: Option<int>)
  {
    if s != "" && AllDigits(s) && Value(s) < I32_LIMIT then Some(Value(s))
    else if |s| > 1 && s[0] == '+' && AllDigits(s[1..]) && Value(s[1..]) < I32_LIMIT then Some(Value(s[1..]))
    else if |s| > 1 && s[0] == '-' && AllDigits(s[1..]) && Value(s[1..]) <= I32_LIMIT then Some(0 - (Value(s[1..]) as int))
    else None
  }

  // Only texts of an i32 are read, and each in one way: signs and leading zeros aside, its digits.
  lemma {:induction false} ParsedIsI32(s: string)
    ensures ParseI32(s).Some? ==> -0x8000_0000 <= ParseI32(s).value <= 0x7fff_ffff
    ensures ParseI32(s).Some? ==> exists sign, k: nat :: sign in {"", "+", "-"} && s == sign + Zeros(k) + Digits(Abs(ParseI32(s).value))
  {
    var n := ParseI32(s);
    if n.Some? {
      var sign := if AllDigits(s) then "" else [s[0]];
      var body := s[|sign|..];
      assert s == sign + body;
      assert sign in {"", "+", "-"} by { assert AllDigits(s) || s[0] == '+' || s[0] == '-'; assert "+" == ['+'] && "-" == ['-']; }
      var k := DigitStringShape(body);
      assert s == sign + Zeros(k) + Digits(Value(body));
      assert Abs(n.value) == Value(body);
      assert sign in {"", "+", "-"} && s == sign + Zeros(k) + Digits(Abs(n.value));
    }
  }

  function Abs(n: int): nat {
    if n < 0 then -n else n
  }

  function RequestedIndex(url: string): Option<int> {
    ParseI32(Trimmed(LastSegment(url)))
  }

  lemma {:induction false} LastSegmentIs(prefix: string, name: string)
    requires forall i :: 0 <= i < |name| ==> name[i] != '/'
    ensures LastSegment(prefix + "/" + name) == name
  {
    var url := prefix + "/" + name;
    if name != "" {
      var front := name[..|name| - 1];
      LastSegmentIs(prefix, front);
      assert url[..|url| - 1] == prefix + "/" + front;
      assert front + [url[|url| - 1]] == name;
    }
  }

  // Every rendered URL asks for the index it was rendered from.
  lemma UrlRoundTrip(prefix: string, index: int)
    requires 0 <= index < I32_LIMIT
    ensures RequestedIndex(Url(prefix, index)) == Some(index)
  {
    var digits := Digits(index);
    DigitsValue(index);
    var name := digits + ".ts";
    assert Url(prefix, index) == prefix + "/" + name;
    LastSegmentIs(prefix, name);
    assert name[|name| - 3..] == ".ts" && name[..|name| - 3] == digits;
    NoSuffix(digits);
  }

  lemma NoSuffix(digits: string)
    requires AllDigits(digits)
    ensures Trimmed(digits) == digits
  {
    assert |digits| >= 3 ==> digits[|digits| - 3..][0] == digits[|digits| - 3] && IsDigit(digits[|digits| - 3]);
  }

  // -- The whole round trip --

  lemma {:induction false} TextParts(prefix: string, s: Segment)
    requires OneLine(prefix) && SegmentOk(s)
    ensures OneLine(Info(s)) && IsInfo(Info(s)) && OneLine(Url(prefix, s.index))
  {
    DigitsValue(s.index);
    SecondsOneLine(s.duration.value);
    assert Info(s)[..8] == "#EXTINF:";
  }

  lemma SecondsOneLine(seconds: real)
    requires seconds > 0.0
    ensures OneLine(SecondsText(seconds))
  {
    var n := Millis(seconds);
    if n >= 0 {
      DigitsValue(n / 1000);
      DigitsValue(n % 1000);
    }
  }

  lemma {:induction false} BodyOneLine(segments: seq<Segment>, prefix: string)
    requires OneLine(prefix) && forall i :: 0 <= i < |segments| ==> SegmentOk(segments[i])
    ensures forall i :: 0 <= i < |BodyLines(segments, prefix)| ==> OneLine(BodyLines(segments, prefix)[i])
  {
    hide OneLine, SegmentOk, Info, Url;
    if segments != [] {
      TextParts(prefix, segments[0]);
      BodyOneLine(segments[1..], prefix);
    }
  }

  lemma HeaderOneLine(target: int)
    ensures forall i :: 0 <= i < |HeaderLines(target)| ==> OneLine(HeaderLines(target)[i]) && !IsInfo(HeaderLines(target)[i])
  {
    var lines := HeaderLines(target);
    if target >= 0 {
      DigitsValue(target);
    }
    forall i | 0 <= i < |lines| ensures OneLine(lines[i]) && !IsInfo(lines[i]) {
      NotInfo(lines[i]);
    }
  }

  lemma NotInfo(line: string)
    ensures |line| > 4 && line[4] != 'I' ==> !IsInfo(line)
  {
    assert |line| >= 8 ==> line[..8][4] == line[4];
  }

  function EntriesOf(segments: seq<Segment>, prefix: string): seq<Entry> {
    seq(|segments|, i requires 0 <= i < |segments| => Entry(Info(segments[i]), Url(prefix, segments[i].index)))
  }

  lemma {:induction false} BodyEntries(segments: seq<Segment>, prefix: string)
    requires OneLine(prefix) && forall i :: 0 <= i < |segments| ==> SegmentOk(segments[i])
    ensures Entries(BodyLines(segments, prefix) + ["#EXT-X-ENDLIST"]) == EntriesOf(segments, prefix)
  {
    hide SegmentOk, Info, Url, IsInfo, OneLine;
    if segments != [] {
      var lines, rest := BodyLines(segments, prefix) + ["#EXT-X-ENDLIST"], BodyLines(segments[1..], prefix) + ["#EXT-X-ENDLIST"];
      TextParts(prefix, segments[0]);
      BodyEntries(segments[1..], prefix);
      assert lines == [Info(segments[0]), Url(prefix, segments[0].index)] + rest;
      assert lines[2..] == rest;
      assert EntriesOf(segments, prefix) == [Entry(Info(segments[0]), Url(prefix, segments[0].index))] + EntriesOf(segments[1..], prefix);
    }
  }

  lemma {:induction false} SkipHeader(header: seq<string>, rest: seq<string>)
    requires forall i :: 0 <= i < |header| ==> !IsInfo(header[i])
    requires rest != []
    ensures Entries(header + rest) == Entries(rest)
  {
    hide IsInfo;
    if header == [] {
      assert header + rest == rest;
    } else {
      SkipHeader(header[1..], rest);
      assert (header + rest)[1..] == header[1..] + rest;
    }
  }

  // A player reading the rendered text sees exactly the segments, in index order.
  lemma PlayerSees(v: Variant, prefix: string)
    requires OneLine(prefix) && forall i :: 0 <= i < |v.segments| ==> SegmentOk(v.segments[i])
    ensures Entries(Lines(Text(PlaylistLines(v, prefix)))) == EntriesOf(v.segments, prefix)
  {
    hide Text, Lines, Entries, SegmentOk, IsInfo, HeaderLines, BodyLines, Target, Info, Url, OneLine;
    var header, body, end := HeaderLines(Target(v)), BodyLines(v.segments, prefix), ["#EXT-X-ENDLIST"];
    HeaderOneLine(Target(v));
    BodyOneLine(v.segments, prefix);
    assert OneLine("#EXT-X-ENDLIST") by { EndOneLine(); }
    LinesOfText(header + body + end);
    assert header + body + end == header + (body + end);
    SkipHeader(header, body + end);
    BodyEntries(v.segments, prefix);
  }

  lemma EndOneLine()
    ensures OneLine("#EXT-X-ENDLIST")
  {
  }

  ghost predicate Plays(original: Variant, e: Entry, s: Segment) {
    && s in original.segments
    && s.duration.Finite? && DurationOf(e.info).Some? && NearestThousandth(DurationOf(e.info).value, s.duration.value)
    && RequestedIndex(e.url) == Some(s.index)
    && Scan(original.segments, s.index) == Some(s.address)
  }

  // What a player makes of the text: the whole number of seconds of its target duration, and every
  // segment once, by increasing index, each no longer than the target as the player reads both.
  ghost predicate RoundTrips(original: Variant, v: Variant, lines: seq<string>) {
    var played, target := Entries(lines), TargetOf(lines);
    && lines != [] && lines[0] == "#EXTM3U"
    && target.Some?
    && |played| == |v.segments|
    && multiset(v.segments) == multiset(original.segments)
    && (forall i :: 0 <= i < |played| ==> Plays(original, played[i], v.segments[i]) && DurationOf(played[i].info).value <= target.value as real)
    && (forall i, j :: 0 <= i < j < |played| ==> v.segments[i].index < v.segments[j].index)
  }

  // Whatever order the manifest listed them in: the player asks for every segment once, by
  // increasing index, for its own duration, and the index of each URL looks up that segment's own
  // address.
  lemma PlaylistRoundTrip(original: Variant, prefix: string)
    requires VariantHeadOk(original) && SegmentsOk(original.segments) && OneLine(prefix)
    ensures RoundTrips(original, Indexed(original), Lines(Text(PlaylistLines(Indexed(original), prefix))))
  {
    hide Text, Lines, Entries, PlaylistLines, Target, Millis, Info, Url, RequestedIndex, ByIndex, Scan, DurationOf, TargetOf, NearestThousandth;
    var v := Indexed(original);
    ByIndexFacts(original.segments);
    SegmentsPermuted(original.segments, v.segments);
    PlayerSees(v, prefix);
    TargetNatural(v);
    PlayerTarget(v, prefix);
    forall i | 0 <= i < |v.segments|
      ensures Plays(original, Entry(Info(v.segments[i]), Url(prefix, v.segments[i].index)), v.segments[i])
      ensures DurationOf(Info(v.segments[i])).value <= Target(v) as real
    {
      assert SegmentOk(v.segments[i]);
      assert v.segments[i] in multiset(original.segments);
      InfoRead(v.segments[i]);
      UrlRoundTrip(prefix, v.segments[i].index);
      TargetIsLeast(v, i);
      ScanFinds(original.segments, v.segments[i].index);
    }
  }

  lemma TargetNatural(v: Variant)
    requires VariantHeadOk(v)
    ensures Target(v) >= 0
  {
    LongestBounds(v.segmentDuration.value, v.segments);
  }

  lemma PlayerTarget(v: Variant, prefix: string)
    requires OneLine(prefix) && Target(v) >= 0 && forall i :: 0 <= i < |v.segments| ==> SegmentOk(v.segments[i])
    ensures var lines := Lines(Text(PlaylistLines(v, prefix)));
      lines != [] && lines[0] == "#EXTM3U" && TargetOf(lines) == Some(Target(v))
  {
    hide Text, Lines, SegmentOk, BodyLines, Target, OneLine, TargetOf;
    var header, body, end := HeaderLines(Target(v)), BodyLines(v.segments, prefix), ["#EXT-X-ENDLIST"];
    HeaderOneLine(Target(v));
    BodyOneLine(v.segments, prefix);
    assert OneLine("#EXT-X-ENDLIST") by { EndOneLine(); }
    LinesOfText(header + body + end);
    assert header + body + end == header + (body + end);
    TargetRead(Target(v), body + end);
  }
}
