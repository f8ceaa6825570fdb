// The final quote of a video or a catalog: every object priced by itself, one approval for all.
module FinalQuotes {
  import opened Outcomes
  import opened Amounts
  import opened Contract
  import opened Sums

  // What the gateway answers for one object. Costs are decimal text.
  datatype ContentQuote = ContentQuote(
    sha256: string,
    fileSize: nat,
    paymentMode: string,
    network: string,
    cost: string,
    gasCost: string)

  datatype QuoteError = NetworkChanged | BadAmount | SumOverflow | Rejected

  const LIFETIME_CAP := 86_400

  function CostText(q: ContentQuote, gas: bool): string {
    if gas then q.gasCost else q.cost
  }

  // try_fold(0, checked_add(amount(..)?))
  function CapTotal(quotes: seq<ContentQuote>, gas: bool): Result<nat, QuoteError> {
    if quotes == [] then Ok(0)
    else
      var front := CapTotal(quotes[..|quotes| - 1], gas);
      var one := Amount(CostText(quotes[|quotes| - 1], gas));
      if front.Err? then front
      else if one.None? then Err(BadAmount)
      else if front.value + one.value >= U128_LIMIT then Err(SumOverflow)
      else Ok(front.value + one.value)
  }

  function Contents(quotes: seq<ContentQuote>): seq<ApprovedContent> {
    seq(|quotes|, i requires 0 <= i < |quotes| => ApprovedContent(quotes[i].sha256, quotes[i].fileSize, quotes[i].paymentMode))
  }

  // `quotes` in order: media files, then the manifest and the two catalogs. The network is the
  // manifest's, the third from the end.
  function BuildApproval(quotes: seq<ContentQuote>, network: string, quoteId: string, now: int, lifetime: int)
    : Result<PaymentApproval, QuoteError>
  {
    var storage, gas := CapTotal(quotes, false), CapTotal(quotes, true);
    if exists i :: 0 <= i < |quotes| && quotes[i].network != network then Err(NetworkChanged)
    else if storage.Err? then Err(storage.error)
    else if gas.Err? then Err(gas.error)
    else
      var contents := Contents(quotes);
      var approval := PaymentApproval(
        quoteId, ContentDigest(network, contents), network,
        now + (if lifetime < LIFETIME_CAP then lifetime else LIFETIME_CAP),
        Digits(storage.value), Digits(gas.value), contents);
      if approval.Validate(now, network) then Ok(approval) else Err(Rejected)
  }

  function CostOf(gas: bool): ContentQuote -> nat {
    (q: ContentQuote) => Amount(CostText(q, gas)).GetOr(0)
  }

  // The checked total is the sum of the amounts, and fails exactly when an amount is malformed or
  // the whole sum is out of range.
  lemma {:induction false} CapTotalIsSum(quotes: seq<ContentQuote>, gas: bool)
    ensures var r := CapTotal(quotes, gas);
      && (r.Ok? ==> r.value == Sum(quotes, CostOf(gas)))
      && (r.Ok? <==> Sum(quotes, CostOf(gas)) < U128_LIMIT
                     && forall i :: 0 <= i < |quotes| ==> Amount(CostText(quotes[i], gas)).Some?)
  {
    if quotes != [] {
      CapTotalIsSum(quotes[..|quotes| - 1], gas);
    }
  }

  // An approval that is built caps storage and gas at the sum of its objects' quotes, permits exactly
  // the quoted objects, all of them quoted on its own network, and lives as long as it was asked to,
  // a day at most.
  lemma {:induction false} BuiltCaps(quotes: seq<ContentQuote>, network: string, quoteId: string, now: int, lifetime: int)
    requires BuildApproval(quotes, network, quoteId, now, lifetime).Ok?
    ensures var a := BuildApproval(quotes, network, quoteId, now, lifetime).value;
      && a.StorageCap() == Sum(quotes, CostOf(false)) && a.GasCap() == Sum(quotes, CostOf(true))
      && a.Validate(now, network)
      && a.network == network && (forall i :: 0 <= i < |quotes| ==> quotes[i].network == network)
      && now < a.expiresAt <= now + 86_400 && a.expiresAt <= now + lifetime
      && (lifetime <= 86_400 ==> a.expiresAt == now + lifetime) && (lifetime > 86_400 ==> a.expiresAt == now + 86_400)
      && (forall sha256, size: nat, mode :: a.Permits(sha256, size, mode) <==>
            exists i :: 0 <= i < |quotes| && quotes[i].sha256 == sha256 && quotes[i].fileSize == size && quotes[i].paymentMode == mode)
  {
    var a := BuildApproval(quotes, network, quoteId, now, lifetime).value;
    assert now < a.expiresAt;
    hide PaymentApproval.Validate;
    CapTotalIsSum(quotes, false);
    CapTotalIsSum(quotes, true);
    AmountRoundTrip(Sum(quotes, CostOf(false)));
    AmountRoundTrip(Sum(quotes, CostOf(true)));
    forall sha256, size: nat, mode
      ensures a.Permits(sha256, size, mode) <==>
        exists i :: 0 <= i < |quotes| && quotes[i].sha256 == sha256 && quotes[i].fileSize == size && quotes[i].paymentMode == mode
    {
      if i :| 0 <= i < |quotes| && quotes[i].sha256 == sha256 && quotes[i].fileSize == size && quotes[i].paymentMode == mode {
        assert a.contents[i] == ApprovedContent(sha256, size, mode);
      }
    }
  }
}
