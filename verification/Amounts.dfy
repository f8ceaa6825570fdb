// Decimal text, as the journal's TEXT columns, the JSON contract and the lease key write it.
module Amounts {
  import opened Outcomes

  const U128_LIMIT: nat := 0x1_0000_0000_0000_0000_0000_0000_0000_0000

  predicate IsDigit(c: char) {
    '0' <= c <= '9'
  }

  predicate AllDigits(s: string) {
    forall i :: 0 <= i < |s| ==> IsDigit(s[i])
  }

  function DigitChar(d: nat): char
    requires d < 10
  {
    '0' + d as char
  }

  // How an unsigned number is written: no sign, no leading zero.
  function Digits(n: nat): string {
    if n < 10 then [DigitChar(n)] else Digits(n / 10) + [DigitChar(n % 10)]
  }

  function Value(s: string): nat
    requires AllDigits(s)
  {
    if s == "" then 0 else 10 * Value(s[..|s| - 1]) + (s[|s| - 1] as int - '0' as int)
  }

  // `amount`: digits only, so no sign, blank or fraction, and within u128.
  function Amount(raw: string): Option<nat> {
    if raw != "" && AllDigits(raw) && Value(raw) < U128_LIMIT then Some(Value(raw)) else None
  }

  lemma {:induction false} DigitsValue(n: nat)
    ensures Digits(n) != "" && AllDigits(Digits(n)) && Value(Digits(n)) == n
    decreases n
  {
    if n < 10 {
      assert Digits(n)[..0] == "";
    } else {
      DigitsValue(n / 10);
      var front := Digits(n / 10);
      assert Digits(n)[..|Digits(n)| - 1] == front;
    }
  }

  // A stored amount reads back as itself.
  lemma AmountRoundTrip(n: nat)
    requires n < U128_LIMIT
    ensures Amount(Digits(n)) == Some(n)
  {
    DigitsValue(n);
  }

  function Zeros(k: nat): string {
    seq(k, _ => '0')
  }

  lemma {:induction false} ZerosValue(k: nat, s: string)
    requires AllDigits(s)
    ensures AllDigits(Zeros(k) + s) && Value(Zeros(k) + s) == Value(s)
    decreases k + |s|
  {
    var t := Zeros(k) + s;
    if s == "" {
      assert t == Zeros(k);
      if k > 0 {
        ZerosValue(k - 1, "");
        assert t[..|t| - 1] == Zeros(k - 1) + "";
      }
    } else {
      ZerosValue(k, s[..|s| - 1]);
      assert t[..|t| - 1] == Zeros(k) + s[..|s| - 1];
    }
  }

  // Every digit string is the canonical text of its value behind leading zeros.
  lemma {:induction false} DigitStringShape(raw: string) returns (k: nat)
    requires raw != "" && AllDigits(raw)
    ensures raw == Zeros(k) + Digits(Value(raw))
  {
    var last := |raw| - 1;
    var front := raw[..last];
    var d: nat := raw[last] as int - '0' as int;
    assert d < 10 && raw[last] == DigitChar(d);
    if front == "" {
      k := 0;
      assert raw == [raw[last]] && Value(raw) == d;
      assert raw == Zeros(0) + Digits(d);
    } else {
      var j := DigitStringShape(front);
      var v := Value(front);
      if v == 0 {
        k := j + 1;
        assert Digits(0) == "0";
        assert raw == Zeros(j) + "0" + [raw[last]];
        assert Value(raw) == d && Digits(d) == [raw[last]];
        assert raw == Zeros(j + 1) + Digits(d);
      } else {
        k := j;
        assert Value(raw) == 10 * v + d;
        assert (10 * v + d) / 10 == v && (10 * v + d) % 10 == d;
        assert Digits(10 * v + d) == Digits(v) + [DigitChar(d)];
        assert raw == front + [raw[last]];
      }
    }
  }

  // Exactly the decimal texts of u128 values are amounts, so a malformed cap is never read as
  // zero and a zero is only ever read from zeros.
  lemma AmountIsDecimal(raw: string, n: nat)
    ensures Amount(raw) == Some(n) <==> n < U128_LIMIT && exists k: nat :: raw == Zeros(k) + Digits(n)
  {
    if Amount(raw) == Some(n) {
      var k := DigitStringShape(raw);
      assert raw == Zeros(k) + Digits(n);
    }
    if n < U128_LIMIT && exists k: nat :: raw == Zeros(k) + Digits(n) {
      var k: nat :| raw == Zeros(k) + Digits(n);
      DigitsValue(n);
      ZerosValue(k, Digits(n));
    }
  }

  // `has_storage_intent` compares the stored text with '0'.
  lemma OnlyZeroIsWrittenZero(n: nat)
    ensures Digits(n) == "0" <==> n == 0
  {
    DigitsValue(n);
    DigitsValue(0);
  }

  // `PaymentLease::key` and the SQL `job_id || ':' || owner || ':' || generation`.
  function LeaseKey(job: string, owner: string, generation: nat): string {
    job + ":" + owner + ":" + Digits(generation)
  }

  // Job identifiers are UUIDs, so they hold no separator.
  predicate IsJobId(job: string) {
    forall i :: 0 <= i < |job| ==> job[i] != ':'
  }

  lemma JobPart(job: string, owner: string, generation: nat)
    requires IsJobId(job)
    ensures var k := LeaseKey(job, owner, generation);
      |job| < |k| && k[..|job|] == job && k[|job|] == ':' && forall i :: 0 <= i < |job| ==> k[i] != ':'
  {
  }

  // The key text names its job.
  lemma LeaseKeyNamesJob(j1: string, o1: string, g1: nat, j2: string, o2: string, g2: nat)
    requires IsJobId(j1) && IsJobId(j2)
    requires LeaseKey(j1, o1, g1) == LeaseKey(j2, o2, g2)
    ensures j1 == j2
  {
    hide LeaseKey, IsJobId;
    JobPart(j1, o1, g1);
    JobPart(j2, o2, g2);
  }

  // For one job the key text determines both the owner and the generation, whatever characters
  // the owner contains.
  lemma LeaseKeyInjective(job: string, o1: string, g1: nat, o2: string, g2: nat)
    requires LeaseKey(job, o1, g1) == LeaseKey(job, o2, g2)
    ensures o1 == o2 && g1 == g2
  {
    DigitsValue(g1);
    DigitsValue(g2);
    var a, b := job + ":" + o1 + ":", job + ":" + o2 + ":";
    var k := a + Digits(g1);
    assert k == b + Digits(g2);
    assert k[|a| - 1] == ':' && k[|b| - 1] == ':';
    if |a| < |b| {
      assert false;
    } else if |b| < |a| {
      assert false;
    } else {
      assert k[..|a|] == a && k[..|b|] == b;
      assert k[|a|..] == Digits(g1) && k[|b|..] == Digits(g2);
      var p := |job| + 1;
      assert a[p..|a| - 1] == o1 && b[p..|b| - 1] == o2;
    }
  }
}
