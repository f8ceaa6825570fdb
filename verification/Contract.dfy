// The content and spending contract the admin service and the payment gateway share.
module Contract {
  import opened Outcomes
  import opened Amounts

  datatype ApprovedContent = ApprovedContent(sha256: string, byteSize: nat, paymentMode: string)

  // SHA-256 digests are free constructors over what they hash, hence injective.
  datatype ContentDigest = ContentDigest(network: string, contents: seq<ApprovedContent>)

  datatype UploadId = UploadId(approval: string, sha256: string, mode: string)

  const ONE_DAY := 86_400
  const MAX_CONTENTS := 65_540

  predicate LowerHexDigit(c: char) {
    IsDigit(c) || 'a' <= c <= 'f'
  }

  predicate ValidContent(item: ApprovedContent) {
    && |item.sha256| == 64
    && (forall i :: 0 <= i < |item.sha256| ==> LowerHexDigit(item.sha256[i]))
    && item.byteSize >= 3
    && item.paymentMode in ["auto", "single", "merkle"]
  }

  datatype PaymentApproval = PaymentApproval(
    quoteId: string,
    contentDigest: ContentDigest,
    network: string,
    expiresAt: int,
    maxStorageAtto: string,
    maxGasWei: string,
    contents: seq<ApprovedContent>)
  {
    predicate Validate(now: int, net: string) {
      && network == net && net != "" && |net| <= 512
      && now < expiresAt <= now + ONE_DAY
      && quoteId != "" && |quoteId| <= 128
      && contents != [] && |contents| <= MAX_CONTENTS
      && Amount(maxStorageAtto).Some?
      && Amount(maxGasWei).Some?
      && (forall i :: 0 <= i < |contents| ==> ValidContent(contents[i]))
      && contentDigest == ContentDigest(net, contents)
    }

    predicate Permits(sha256: string, byteSize: nat, mode: string) {
      exists i :: 0 <= i < |contents| && contents[i] == ApprovedContent(sha256, byteSize, mode)
    }

    function StorageCap(): nat {
      Amount(maxStorageAtto).GetOr(0)
    }

    function GasCap(): nat {
      Amount(maxGasWei).GetOr(0)
    }
  }

  datatype PaymentLease = PaymentLease(
    quoteId: string,
    jobId: string,
    owner: string,
    generation: int,
    expiresAt: int)
}
