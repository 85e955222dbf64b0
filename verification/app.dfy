/**
 * The decision rules of the app's root component: which requests are the
 * connected account's, and which intent parameters a new request is sent
 * with.
 */
module App {
  import opened Types
  import opened Seqs

  /** `request.requesterAddress === connectedAccount`. */
  predicate MadeBy(request: Request, account: Option<Address>): (made: bool)
    ensures made ==> account.Some?
  {
    account == Some(request.requesterAddress)
  }

  /** `useRequests`: the requests the connected account made, in their order.
      `===` against an undefined account matches nothing. */
  function UserRequests(requests: seq<Request>, account: Option<Address>): (mine: seq<Request>)
    ensures forall r :: r in mine ==> MadeBy(r, account)
    ensures forall r: Request :: MadeBy(r, account) ==> multiset(mine)[r] == multiset(requests)[r]
    ensures IsSubsequence(mine, requests) && |mine| <= |requests|
  {
    var mine := Filter(requests, (r: Request) => MadeBy(r, account));
    SubsequenceIsNoLonger(mine, requests);
    mine
  }

  /** The `token` part of a token intent. */
  datatype TokenDeposit = TokenDeposit(address: Address, value: string)

  /** `intentParams`: for ether only the attached value; for a token the deposit and a gas limit. */
  datatype IntentParams = EtherIntent(value: string) | TokenIntent(token: TokenDeposit, gas: int)

  /** The call `actions.request(tokenAddress, depositAmount, requestedAmount, intentParams)`. */
  datatype RequestAction = RequestAction(tokenAddress: Address, depositAmount: string, requestedAmount: string,
                                         intentParams: IntentParams)

  /** `Math.ceil(n / d)` for a natural `n` and a positive `d`. */
  function CeilDiv(n: nat, d: nat): (q: nat)
    requires d > 0
    ensures q * d >= n && (q == 0 || (q - 1) * d < n)
  {
    (n + d - 1) / d
  }

  /** The gas limit for a token deposit whose requested amount has `length` characters. */
  function TokenDepositGas(length: nat): (gas: int)
    ensures gas >= 480000
    ensures (gas - 480000) % 20000 == 0
    ensures 32 * ((gas - 480000) / 20000 - 1) < length <= 32 * ((gas - 480000) / 20000)
  {
    400000 + 20000 * CeilDiv(length, 32) + 80000 * 1
  }

  /** Each further block of 32 characters adds exactly 20000 gas. */
  lemma TokenDepositGasPerBlock(length: nat)
    ensures TokenDepositGas(length + 32) == TokenDepositGas(length) + 20000
  {
    assert CeilDiv(length + 32, 32) == CeilDiv(length, 32) + 1;
  }

  /** More characters never lower the gas limit. */
  lemma TokenDepositGasMonotone(length: nat, longer: nat)
    requires length <= longer
    ensures TokenDepositGas(length) <= TokenDepositGas(longer)
  {
    assert (length + 31) / 32 <= (longer + 31) / 32;
  }

  /** `handleRequest`. */
  function HandleRequest(tokenAddress: Address, depositAmount: string, requestedAmount: string, ether: Address)
    : (action: RequestAction)
    ensures action.tokenAddress == tokenAddress && action.depositAmount == depositAmount
            && action.requestedAmount == requestedAmount
    ensures tokenAddress == ether <==> action.intentParams.EtherIntent?
    ensures tokenAddress == ether ==> action.intentParams.value == depositAmount
    ensures tokenAddress != ether ==>
      && action.intentParams.token == TokenDeposit(tokenAddress, depositAmount)
      && action.intentParams.gas == 480000 + 20000 * CeilDiv(|requestedAmount|, 32)
  {
    var intentParams :=
      if tokenAddress == ether then EtherIntent(depositAmount)
      else TokenIntent(TokenDeposit(tokenAddress, depositAmount), TokenDepositGas(|requestedAmount|));
    RequestAction(tokenAddress, depositAmount, requestedAmount, intentParams)
  }
}
