/**
 * The stateful part of `useBoost()` (src/plugins/boost/useBoost.ts): the
 * `boosts` and `loadingBoosts` refs, the receipt loop of `loadBoosts`, and the
 * shared `pendingCount` kept around the two wallet transactions. The subgraph,
 * the guard and the wallet are parameters or ghost logs; every `await` is
 * taken to succeed.
 */
module UseBoost {
  import opened Wrappers
  import opened BoostModel

  /**
   * The subgraph query `Boosts(tag)` on a chain, seen as a function of (tag, chain id).
   * The query selects no `receipt` field, so the boosts it returns have it `Unset`.
   */
  type Subgraph = (string, int) -> seq<Boost>

  /** A contract call handed to the wallet. */
  datatype ContractCall =
    | DepositTokensCall(boostId: string, amount: string)
    | ClaimTokensCall(message: string, sig: Option<string>)

  /** The transaction-status store shared by every user of `useTxStatus()`. */
  class TxStatus {
    var pendingCount: int

    constructor (pending: int)
      ensures pendingCount == pending
    {
      pendingCount := pending;
    }
  }

  class BoostClient {
    var boosts: seq<Boost>
    var loadingBoosts: bool
    const txStatus: TxStatus
    /** Every guard request made so far, in order. */
    ghost var guardLog: seq<GuardRequest>
    /** Every contract call sent to the wallet so far, in order. */
    ghost var sent: seq<ContractCall>

    /** `useBoost()`: no boosts yet, and the loading flag starts raised. */
    constructor (status: TxStatus)
      ensures boosts == [] && loadingBoosts
      ensures txStatus == status
      ensures guardLog == [] && sent == []
    {
      boosts := [];
      loadingBoosts := true;
      txStatus := status;
      guardLog := [];
      sent := [];
    }

    /**
     * `loadBoosts`: stores the subgraph's list and, for a non-empty account,
     * asks the guard about each boost in list order and stores its verdict in
     * that boost's `receipt`. `loadingWhileQuerying` is the flag while the
     * subgraph query is outstanding.
     */
    method LoadBoosts(proposalId: string, chainId: int, account: string, subgraph: Subgraph, guard: Guard)
      returns (ghost loadingWhileQuerying: bool)
      requires forall i :: 0 <= i < |subgraph(proposalId, chainId)| ==> subgraph(proposalId, chainId)[i].receipt == Unset
      modifies this`boosts, this`loadingBoosts, this`guardLog
      ensures loadingWhileQuerying && !loadingBoosts
      ensures account == "" ==> boosts == subgraph(proposalId, chainId)
      ensures account == "" ==> forall i :: 0 <= i < |boosts| ==> boosts[i].receipt == Unset
      ensures account != "" ==> boosts == AttachReceipts(subgraph(proposalId, chainId), account, guard)
      ensures guardLog == old(guardLog) +
        (if account == "" then [] else GuardRequests(subgraph(proposalId, chainId), account))
    {
      loadingBoosts := true;
      loadingWhileQuerying := loadingBoosts;
      var fetched := subgraph(proposalId, chainId);
      boosts := fetched;
      if account != "" {
        var i := 0;
        while i < |boosts|
          invariant 0 <= i <= |fetched| == |boosts|
          invariant forall j :: 0 <= j < i ==>
            boosts[j] == fetched[j].(receipt := Set(RequestClaimReceipt(guard, fetched[j].id, account, ClaimAmount)))
          invariant forall j :: i <= j < |fetched| ==> boosts[j] == fetched[j]
          invariant guardLog == old(guardLog) + GuardRequests(fetched[..i], account)
        {
          var boost := boosts[i];
          var verdict := CallGuard(guard, boost.id, account, ClaimAmount);
          boosts := boosts[i := boost.(receipt := Set(verdict))];
          assert GuardRequests(fetched[..i + 1], account) ==
            GuardRequests(fetched[..i], account) + [GuardRequest(boost.id, account, ClaimAmount)];
          i := i + 1;
        }
        assert fetched[..i] == fetched;
      }
      loadingBoosts := false;
    }

    /** `await requestClaimReceipt(..)`: one guard request, logged, and its verdict. */
    method CallGuard(guard: Guard, boostId: string, recipient: string, amount: string) returns (r: Option<GuardResponse>)
      modifies this`guardLog
      ensures guardLog == old(guardLog) + [GuardRequest(boostId, recipient, amount)]
      ensures r == RequestClaimReceipt(guard, boostId, recipient, amount)
    {
      guardLog := guardLog + [GuardRequest(boostId, recipient, amount)];
      r := RequestClaimReceipt(guard, boostId, recipient, amount);
    }

    /**
     * `depositTokens`: sends the deposit, then holds `pendingCount` one higher
     * until the transaction is confirmed; `awaiting` is its value meanwhile.
     */
    method DepositTokens(boostId: string, amount: string) returns (ghost awaiting: int)
      modifies txStatus, this`sent
      ensures sent == old(sent) + [DepositTokensCall(boostId, amount)]
      ensures awaiting == old(txStatus.pendingCount) + 1
      ensures txStatus.pendingCount == old(txStatus.pendingCount)
    {
      sent := sent + [DepositTokensCall(boostId, amount)];
      txStatus.pendingCount := txStatus.pendingCount + 1;
      awaiting := txStatus.pendingCount;
      txStatus.pendingCount := txStatus.pendingCount - 1;
    }

    /**
     * `claimTokens`: submits the message and signature of the boost's receipt,
     * with the same counter discipline. A boost whose receipt was never set or
     * is `null` fails (`ok` false) before anything is sent or counted.
     */
    method ClaimTokens(boost: Boost) returns (ok: bool, ghost awaiting: int)
      modifies txStatus, this`sent
      ensures ok <==> boost.receipt.Set? && boost.receipt.receipt.Some?
      ensures ok ==> (sent == old(sent) +
        [ClaimTokensCall(boost.receipt.receipt.value.message, boost.receipt.receipt.value.sig)])
      ensures ok ==> awaiting == old(txStatus.pendingCount) + 1
      ensures !ok ==> sent == old(sent)
      ensures txStatus.pendingCount == old(txStatus.pendingCount)
    {
      awaiting := txStatus.pendingCount;
      ok := boost.receipt.Set? && boost.receipt.receipt.Some?;
      if ok {
        var r := boost.receipt.receipt.value;
        sent := sent + [ClaimTokensCall(r.message, r.sig)];
        txStatus.pendingCount := txStatus.pendingCount + 1;
        awaiting := txStatus.pendingCount;
        txStatus.pendingCount := txStatus.pendingCount - 1;
      }
    }
  }

  /**
   * Two boosts "b1" and "b2", account "0xABC", and a guard that signs for "b1"
   * only: the first boost gets the guard's answer, the second gets `null`.
   */
  method TwoBoostsScenario(token: Token) returns (first: ReceiptField, second: ReceiptField)
    ensures first == Set(Some(GuardResponse(Some("s"), "m")))
    ensures second == Set(None)
  {
    var b1 := Boost("b1", "0", "", token, 0, 0, [], Unset);
    var b2 := Boost("b2", "0", "", token, 0, 0, [], Unset);
    var signed := GuardResponse(Some("s"), "m");
    var unsigned := GuardResponse(None, "");
    var guard: Guard := (id, recipient, amount) => if id == "b1" then signed else unsigned;
    var subgraph: Subgraph := (tag, chain) => [b1, b2];
    var status := new TxStatus(0);
    var client := new BoostClient(status);
    ghost var loading := client.LoadBoosts("proposal", 1, "0xABC", subgraph, guard);
    assert client.boosts[0].receipt == Set(Some(signed));
    assert client.boosts[1].receipt == Set(None);
    assert client.guardLog[0].boostId == "b1" && client.guardLog[1].boostId == "b2";
    assert !client.loadingBoosts;
    ghost var awaiting := client.DepositTokens("b1", "5");
    assert awaiting == 1 && status.pendingCount == 0;
    var ok;
    ok, awaiting := client.ClaimTokens(client.boosts[0]);
    assert ok && status.pendingCount == 0;
    assert client.sent == [DepositTokensCall("b1", "5"), ClaimTokensCall("m", Some("s"))];
    ok, awaiting := client.ClaimTokens(client.boosts[1]);
    assert !ok;
    first, second := client.boosts[0].receipt, client.boosts[1].receipt;
  }
}
