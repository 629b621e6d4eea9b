/**
 * The boost records the subgraph returns, and the pure helpers of the boost
 * plugin: the claim lookup, the block-explorer link and the guard's
 * signature rule (src/plugins/boost/useBoost.ts).
 */
module BoostModel {
  import opened Wrappers
  import opened JsBuiltins

  /** One token in its smallest unit: the fixed amount every receipt is requested for. */
  const ClaimAmount: string := "1000000000000000000"

  const EtherscanTx: string := "https://etherscan.io/tx/"
  const RinkebyTx: string := "https://rinkeby.etherscan.io/tx/"

  datatype Token = Token(name: string, symbol: string, decimals: int)

  /** A claim; its `id` is `<transaction hash>-<index>`. */
  datatype Claim = Claim(id: string, recipient: string, amount: string)

  /**
   * The `result` object of the guard's `get_receipt` answer; `sig` may be missing.
   * `message` stands for `result.data.message`, taken to be present: a result
   * without `data` is not modelled.
   */
  datatype GuardResponse = GuardResponse(sig: Option<string>, message: string)

  /** The client-added `receipt` field: never assigned, or assigned a receipt or `null`. */
  datatype ReceiptField = Unset | Set(receipt: Option<GuardResponse>)

  datatype Boost = Boost(
    id: string,
    balance: string,
    strategyURI: string,
    token: Token,
    start: int,
    end: int,
    claims: seq<Claim>,
    receipt: ReceiptField)

  /** The guard service, seen as a function of (boost id, recipient, amount). */
  type Guard = (string, string, string) -> GuardResponse

  /** JavaScript truthiness of `result.sig`: present and not the empty string. */
  predicate Signed(res: GuardResponse)
  {
    res.sig.Some? && res.sig.value != ""
  }

  /** A claim belongs to `account` when the recipients agree up to (ASCII) case. */
  predicate Matches(c: Claim, account: string)
  {
    Lower(c.recipient) == Lower(account)
  }

  /** `getClaim`: the first claim of `boost` whose recipient is `account`, ignoring case. */
  function GetClaim(boost: Boost, account: string): (r: Option<Claim>)
    ensures r.Some? ==> r.value in boost.claims && Matches(r.value, account)
    ensures r.None? <==> forall i :: 0 <= i < |boost.claims| ==> !Matches(boost.claims[i], account)
    ensures forall i :: 0 <= i < |boost.claims| && Matches(boost.claims[i], account) &&
                        (forall j :: 0 <= j < i ==> !Matches(boost.claims[j], account))
                    ==> r == Some(boost.claims[i])
  {
    Find(boost.claims, c => Matches(c, account))
  }

  /** Accounts that differ only in case find the same claim. */
  lemma GetClaimCaseInsensitive(boost: Boost, a: string, b: string)
    requires Lower(a) == Lower(b)
    ensures GetClaim(boost, a) == GetClaim(boost, b)
  {
    FindCongruent(boost.claims, c => Matches(c, a), c => Matches(c, b));
  }

  /** In particular, lower-casing the account first changes nothing. */
  lemma GetClaimLowered(boost: Boost, account: string)
    ensures GetClaim(boost, Lower(account)) == GetClaim(boost, account)
  {
    LowerIdempotent(account);
    GetClaimCaseInsensitive(boost, Lower(account), account);
  }

  /** `claim.id.split('-')[0]`: the transaction hash inside a claim id. */
  function TxHash(id: string): (h: string)
    ensures h <= id && '-' !in h
  {
    FirstPiece(id, '-');
    Split(id, '-')[0]
  }

  /** The hash is the prefix of the id before its first `'-'`, or the whole id when it has none. */
  lemma TxHashBeforeFirstDash(id: string)
    ensures TxHash(id) <= id
    ensures '-' !in TxHash(id)
    ensures TxHash(id) == id <==> '-' !in id
    ensures |TxHash(id)| < |id| ==> id[|TxHash(id)|] == '-'
  {
    FirstPiece(id, '-');
  }

  /** The explorer table `explorerUrls`, keyed by chain id. */
  function ExplorerUrls(txId: string): map<int, string>
  {
    map[1 := EtherscanTx + txId, 4 := RinkebyTx + txId]
  }

  /** `getClaimTxLink`: the explorer link of the claim's transaction; `None` on any other chain. */
  function GetClaimTxLink(claim: Claim, chainId: int): (r: Option<string>)
    ensures r.Some? <==> chainId == 1 || chainId == 4
    ensures chainId == 1 ==> r == Some(EtherscanTx + TxHash(claim.id))
    ensures chainId == 4 ==> r == Some(RinkebyTx + TxHash(claim.id))
  {
    var urls := ExplorerUrls(TxHash(claim.id));
    if chainId in urls then Some(urls[chainId]) else None
  }

  /** A link, when there is one, ends in the hash, a dash-free prefix of the claim id. */
  lemma TxLinkNamesHash(claim: Claim, chainId: int)
    requires GetClaimTxLink(claim, chainId).Some?
    ensures var link, h := GetClaimTxLink(claim, chainId).value, TxHash(claim.id);
      |h| <= |link| && link[|link| - |h|..] == h && h <= claim.id && '-' !in h
  {
    TxHashBeforeFirstDash(claim.id);
  }

  /** `requestClaimReceipt`: the guard's `result` when its `sig` is truthy, `null` otherwise. */
  function RequestClaimReceipt(guard: Guard, boostId: string, recipient: string, amount: string): (r: Option<GuardResponse>)
    ensures r.Some? <==> Signed(guard(boostId, recipient, amount))
    ensures r.Some? ==> r.value == guard(boostId, recipient, amount)
  {
    var res := guard(boostId, recipient, amount);
    if Signed(res) then Some(res) else None
  }

  /** What the receipt loop of `loadBoosts` makes of the boosts `bs` for a non-empty `account`. */
  function AttachReceipts(bs: seq<Boost>, account: string, guard: Guard): (r: seq<Boost>)
    ensures |r| == |bs|
    ensures forall i :: 0 <= i < |bs| ==> r[i].(receipt := bs[i].receipt) == bs[i]
    ensures forall i :: 0 <= i < |bs| ==>
      r[i].receipt == Set(RequestClaimReceipt(guard, bs[i].id, account, ClaimAmount))
  {
    if |bs| == 0 then []
    else
      var head := bs[0].(receipt := Set(RequestClaimReceipt(guard, bs[0].id, account, ClaimAmount)));
      var tail := AttachReceipts(bs[1..], account, guard);
      assert forall i :: 1 <= i < |bs| ==> bs[i] == bs[1..][i - 1];
      [head] + tail
  }

  /** Every receipt attached by the loop carries a truthy signature. */
  lemma AttachedReceiptsSigned(bs: seq<Boost>, account: string, guard: Guard, i: int)
    requires 0 <= i < |bs|
    requires AttachReceipts(bs, account, guard)[i].receipt.receipt.Some?
    ensures Signed(AttachReceipts(bs, account, guard)[i].receipt.receipt.value)
    ensures AttachReceipts(bs, account, guard)[i].receipt.receipt.value == guard(bs[i].id, account, ClaimAmount)
  {
  }

  /** One guard request: (boost id, recipient, amount). */
  datatype GuardRequest = GuardRequest(boostId: string, recipient: string, amount: string)

  /** The guard requests of the receipt loop, one per boost in list order. */
  function GuardRequests(bs: seq<Boost>, account: string): (r: seq<GuardRequest>)
    ensures |r| == |bs|
    ensures forall i :: 0 <= i < |bs| ==> r[i].boostId == bs[i].id && r[i].recipient == account
    ensures forall i :: 0 <= i < |bs| ==> r[i].amount == ClaimAmount
  {
    seq(|bs|, i requires 0 <= i < |bs| => GuardRequest(bs[i].id, account, ClaimAmount))
  }
}
