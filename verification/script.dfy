/**
 * The background script's store: a reducer that folds the Aragon event
 * stream into the state object, with its event handlers and helpers.
 *
 * Every call into the Aragon API or the token helpers (`getBlock`,
 * `getTokenRequest`, the on-chain token lookups, `tokenDataFallback`) is a
 * field of `Env`; the fold itself is a pure function of state, event and
 * environment.
 */
module Script {
  import opened Types
  import opened Seqs

  const ZeroAddress: Address := "0x0000000000000000000000000000000000000000"

  /** Which piece of token metadata is looked up. */
  datatype TokenField = DecimalsField | NameField | SymbolField

  /** The outcome of an on-chain metadata call: it threw, or it returned a value
      ("" stands for every falsy value, which the loaders treat alike). */
  datatype Lookup = Threw | Returned(value: string)

  /** The ledger's `getTokenRequest` record, as far as the projector reads it. */
  datatype LedgerRecord = LedgerRecord(requesterAddress: Address)

  /** Everything outside the reducer that it calls:
      `ether` is the ETH sentinel address, `networkType` the connected network's type,
      `onChain` the `getTokenDecimals/Name/Symbol` calls, `fallback` the `tokenDataFallback`
      table ("" when it has no entry), `blockTimestamp` the `getBlock` call and
      `tokenRequest` the `getTokenRequest` call (`None` when the call fails). */
  datatype Env = Env(
    ether: Address,
    networkType: string,
    onChain: (Address, TokenField) -> Lookup,
    fallback: (Address, TokenField, string) -> string,
    blockTimestamp: int -> Option<int>,
    tokenRequest: RequestId -> Option<LedgerRecord>)

  /** The events the store is fed. `Unrecognised` stands for every other event name. */
  datatype Event =
    | AccountsTrigger(account: Option<Address>)
    | SyncStatusSyncing
    | SyncStatusSynced
    | TokenRequestCreated(requestId: RequestId, requesterAddress: Address, depositToken: Address,
                          depositAmount: string, requestAmount: string, blockNumber: int)
    | TokenRequestRefunded(refundedId: RequestId)
    | TokenRequestFinalised(finalisedId: RequestId)
    | Unrecognised(name: string)

  /** What a reducer call resolves to: a new state, `undefined` (a handler's catch
      block ran), or a rejected promise (a handler threw outside any try). */
  datatype Outcome = Next(state: State) | Undefined | Failed

  /***** Helpers *****/

  /** The on-chain metadata call returned a truthy value. */
  predicate OnChainTruthy(address: Address, field: TokenField, env: Env)
  {
    env.onChain(address, field).Returned? && Truthy(env.onChain(address, field).value)
  }

  /** The fallback table's entry for the connected network. */
  function FallbackOf(address: Address, field: TokenField, env: Env): (v: string)
  {
    env.fallback(address, field, env.networkType)
  }

  /** The metadata loaders: the on-chain value when the call returns a truthy one,
      otherwise the fallback table's value, otherwise `default`. */
  function LoadTokenField(address: Address, field: TokenField, default: string, env: Env): (v: string)
    ensures OnChainTruthy(address, field, env) ==> v == env.onChain(address, field).value
    ensures !OnChainTruthy(address, field, env) && Truthy(FallbackOf(address, field, env))
            ==> v == FallbackOf(address, field, env)
    ensures !OnChainTruthy(address, field, env) && !Truthy(FallbackOf(address, field, env))
            ==> v == default
  {
    var fallback := Or(env.fallback(address, field, env.networkType), default);
    match env.onChain(address, field)
    case Returned(value) => Or(value, fallback)
    case Threw => fallback
  }

  function LoadTokenName(address: Address, env: Env): (name: string)
    ensures Truthy(name) <==> OnChainTruthy(address, NameField, env) || Truthy(FallbackOf(address, NameField, env))
  {
    LoadTokenField(address, NameField, "", env)
  }

  function LoadTokenSymbol(address: Address, env: Env): (symbol: string)
    ensures Truthy(symbol) <==> OnChainTruthy(address, SymbolField, env) || Truthy(FallbackOf(address, SymbolField, env))
  {
    LoadTokenField(address, SymbolField, "", env)
  }

  function LoadTokenDecimals(address: Address, env: Env): (decimals: string)
    ensures Truthy(decimals)
    ensures (!OnChainTruthy(address, DecimalsField, env) && !Truthy(FallbackOf(address, DecimalsField, env)))
            ==> decimals == "0"
  {
    LoadTokenField(address, DecimalsField, "0", env)
  }

  function GetTokenData(address: Address, env: Env): (t: TokenData)
    ensures t.address == address && Truthy(t.decimals)
  {
    TokenData(LoadTokenDecimals(address, env), LoadTokenName(address, env), LoadTokenSymbol(address, env), address)
  }

  /** `marshallDate`: block seconds to JavaScript milliseconds. */
  function MarshallDate(seconds: int): (ms: int)
    ensures ms % 1000 == 0 && ms / 1000 == seconds
  {
    seconds * 1000
  }

  /** `findIndex` on the request id: the first matching index, or -1. */
  function FindIndex(requests: seq<Request>, id: RequestId): (i: int)
    ensures -1 <= i < |requests|
    ensures i == -1 <==> forall k :: 0 <= k < |requests| ==> requests[k].requestId != id
    ensures 0 <= i ==> requests[i].requestId == id && forall k :: 0 <= k < i ==> requests[k].requestId != id
  {
    if requests == [] then -1
    else if requests[0].requestId == id then 0
    else
      var j := FindIndex(requests[1..], id);
      if j == -1 then -1 else j + 1
  }

  /** What `updateRequestStatus` returns: `undefined` when no entry has the id, otherwise
      the list with the first such entry's status replaced. */
  function WithStatus(requests: seq<Request>, id: RequestId, next: Status): (r: Option<seq<Request>>)
    ensures var i := FindIndex(requests, id);
      if i == -1 then r.None?
      else
        && r.Some? && |r.value| == |requests|
        && r.value[i].status == Some(next)
        && r.value[i].(status := requests[i].status) == requests[i]
        && forall k :: 0 <= k < |requests| && k != i ==> r.value[k] == requests[k]
  {
    var i := FindIndex(requests, id);
    if i == -1 then None else Some(requests[i := requests[i].(status := Some(next))])
  }

  /** `updateRequestStatus`: find the entry, copy the list, overwrite the copy's entry. */
  method UpdateRequestStatus(requests: seq<Request>, id: RequestId, next: Status) returns (r: Option<seq<Request>>)
    ensures r == WithStatus(requests, id, next)
  {
    var i := 0;
    while i < |requests| && requests[i].requestId != id
      invariant 0 <= i <= |requests|
      invariant forall k :: 0 <= k < i ==> requests[k].requestId != id
    {
      i := i + 1;
    }
    if i == |requests| {
      return None;
    }
    var nextRequests := new Request[|requests|](k requires 0 <= k < |requests| => requests[k]);
    nextRequests[i] := nextRequests[i].(status := Some(next));
    r := Some(nextRequests[..]);
    assert nextRequests[..] == requests[i := requests[i].(status := Some(next))];
  }

  /** The entry `initializeState` puts in front of the accepted tokens. */
  function EtherToken(ether: Address): (t: TokenData)
  {
    TokenData("18", "Ether", "ETH", ether)
  }

  /** The configured tokens with the ETH sentinel filtered out, in order. */
  function ListedTokens(tokens: seq<Address>, ether: Address): (listed: seq<Address>)
    ensures forall i :: 0 <= i < |listed| ==> listed[i] != ether
    ensures forall t :: t != ether ==> multiset(listed)[t] == multiset(tokens)[t]
    ensures IsSubsequence(listed, tokens)
  {
    var listed := Filter(tokens, t => t != ether);
    assert forall i :: 0 <= i < |listed| ==> listed[i] in listed;
    listed
  }

  /** `getAcceptedTokens`: the metadata of each configured token except the ETH sentinel, in order. */
  function GetAcceptedTokens(tokens: seq<Address>, env: Env): (accepted: seq<TokenData>)
    ensures var listed := ListedTokens(tokens, env.ether);
      && |accepted| == |listed|
      && forall i :: 0 <= i < |accepted| ==> accepted[i] == GetTokenData(listed[i], env)
    ensures forall i :: 0 <= i < |accepted| ==> accepted[i].address != env.ether
  {
    var listed := ListedTokens(tokens, env.ether);
    seq(|listed|, i requires 0 <= i < |listed| => GetTokenData(listed[i], env))
  }

  /** `initializeState`. `tokenManagerToken` is the result of the token manager's `token()`
      call (`None` when it rejects); `identifyReturns` says whether the `app.indentify`
      call returns normally. Either failure lands in the catch block and yields undefined. */
  method InitializeState(tokenManagerToken: Option<Address>, tokens: seq<Address>, identifyReturns: bool, env: Env)
    returns (init: Option<State>)
    ensures init.Some? <==> tokenManagerToken.Some? && identifyReturns
    ensures init.Some? ==>
      && init.value.isSyncing == Some(true)
      && init.value.requests == Some([])
      && init.value.token == Some(GetTokenData(tokenManagerToken.value, env))
      && init.value.account.None? && init.value.ready.None?
      && init.value.acceptedTokens.Some?
      && var accepted := init.value.acceptedTokens.value;
         && |accepted| >= 1 && accepted[0] == EtherToken(env.ether)
         && accepted[1..] == GetAcceptedTokens(tokens, env)
         && forall i :: 1 <= i < |accepted| ==> accepted[i].address != env.ether
  {
    if tokenManagerToken.None? {
      return None;
    }
    var token := GetTokenData(tokenManagerToken.value, env);
    var configured := GetAcceptedTokens(tokens, env);
    var acceptedTokens := configured;
    acceptedTokens := [EtherToken(env.ether)] + acceptedTokens;
    assert acceptedTokens[1..] == configured;
    if !identifyReturns {
      return None;
    }
    init := Some(State(Some(true), Some(token), Some(acceptedTokens), Some([]), None, None));
  }

  /***** Event handlers *****/

  function UpdateConnectedAccount(state: State, account: Option<Address>): (r: State)
    ensures r.account == account && r.(account := state.account) == state
  {
    State(state.isSyncing, state.token, state.acceptedTokens, state.requests, account, state.ready)
  }

  /** The entry `newTokenRequest` appends; `decimals`, `name` and `symbol` are fixed for ether. */
  function CreatedEntry(ev: Event, env: Env, timestamp: int, record: LedgerRecord): (entry: Request)
    requires ev.TokenRequestCreated?
    ensures && entry.requestId == ev.requestId && entry.requesterAddress == ev.requesterAddress
            && entry.depositToken == ev.depositToken
            && entry.depositAmount == ev.depositAmount && entry.requestAmount == ev.requestAmount
    ensures ev.depositToken == env.ether ==>
      entry.depositDecimals == Number(18) && entry.depositName == "Ether" && entry.depositSymbol == "ETH"
    ensures ev.depositToken != env.ether ==>
      && entry.depositDecimals == Text(LoadTokenDecimals(ev.depositToken, env))
      && entry.depositName == LoadTokenName(ev.depositToken, env)
      && entry.depositSymbol == LoadTokenSymbol(ev.depositToken, env)
    ensures entry.date == timestamp * 1000
    ensures entry.status == Some(Pending) <==> record.requesterAddress != ZeroAddress
    ensures entry.status != Some(Pending) ==> entry.status.None?
    ensures entry.actionDate.None?
  {
    var data := GetTokenData(ev.depositToken, env);
    var isEther := ev.depositToken == env.ether;
    Request(
      ev.requestId, ev.requesterAddress, ev.depositToken,
      if isEther then Number(18) else Text(data.decimals),
      if isEther then "Ether" else data.name,
      if isEther then "ETH" else data.symbol,
      ev.depositAmount, ev.requestAmount,
      if record.requesterAddress != ZeroAddress then Some(Pending) else None,
      MarshallDate(timestamp),
      None)
  }

  /** `newTokenRequest`. */
  function NewTokenRequest(state: State, ev: Event, env: Env): (r: Outcome)
    requires ev.TokenRequestCreated?
    ensures !TruthyOption(state.account) ==> r == Next(state)
    ensures TruthyOption(state.account) ==>
      (r.Next? <==> env.blockTimestamp(ev.blockNumber).Some? && env.tokenRequest(ev.requestId).Some?
                    && state.requests.Some?)
    ensures TruthyOption(state.account) && r.Next? ==>
      && r.state.(requests := state.requests) == state
      && r.state.requests.Some?
      && var before, after := state.requests.value, r.state.requests.value;
         && |after| == |before| + 1
         && after[..|before|] == before
         && after[|before|].requestId == ev.requestId
         && after[|before|].requesterAddress == ev.requesterAddress
         && after[|before|].depositToken == ev.depositToken
         && after[|before|].depositAmount == ev.depositAmount
         && after[|before|].requestAmount == ev.requestAmount
         && (ev.depositToken == env.ether ==>
               && after[|before|].depositDecimals == Number(18)
               && after[|before|].depositName == "Ether"
               && after[|before|].depositSymbol == "ETH")
         && (ev.depositToken != env.ether ==>
               && after[|before|].depositDecimals == Text(LoadTokenDecimals(ev.depositToken, env))
               && after[|before|].depositName == LoadTokenName(ev.depositToken, env)
               && after[|before|].depositSymbol == LoadTokenSymbol(ev.depositToken, env))
         && after[|before|].date == env.blockTimestamp(ev.blockNumber).value * 1000
         && (after[|before|].status == Some(Pending)
             <==> env.tokenRequest(ev.requestId).value.requesterAddress != ZeroAddress)
         && (after[|before|].status != Some(Pending) ==> after[|before|].status.None?)
         && after[|before|].actionDate.None?
  {
    if !TruthyOption(state.account) then Next(state)
    else
      match env.blockTimestamp(ev.blockNumber)
      case None => Undefined
      case Some(timestamp) =>
        match env.tokenRequest(ev.requestId)
        case None => Undefined
        case Some(record) =>
          match state.requests
          case None => Undefined
          case Some(requests) =>
            Next(state.(requests := Some(requests + [CreatedEntry(ev, env, timestamp, record)])))
  }

  /** The shared body of `requestRefunded` and `requestFinalised`; reading `findIndex` of an
      undefined list throws outside any try, so the promise rejects. */
  function SetRequestStatus(state: State, id: RequestId, next: Status): (r: Outcome)
    ensures r.Failed? <==> state.requests.None?
    ensures !r.Undefined?
    ensures r.Next? ==>
      && r.state.(requests := state.requests) == state
      && var requests, i := state.requests.value, FindIndex(state.requests.value, id);
         && (i == -1 ==> r.state.requests.None?)
         && (i != -1 ==> r.state.requests == Some(requests[i := requests[i].(status := Some(next))]))
  {
    match state.requests
    case None => Failed
    case Some(requests) => Next(state.(requests := WithStatus(requests, id, next)))
  }

  function RequestRefunded(state: State, id: RequestId): (r: Outcome)
    ensures r.Failed? <==> state.requests.None?
    ensures state.requests.Some? ==> r == Next(state.(requests := WithStatus(state.requests.value, id, Withdrawed)))
    ensures r.Next? ==>
      && r.state.(requests := state.requests) == state
      && (r.state.requests.None? <==> FindIndex(state.requests.value, id) == -1)
      && (r.state.requests.Some? ==>
            && |r.state.requests.value| == |state.requests.value|
            && r.state.requests.value[FindIndex(state.requests.value, id)].status == Some(Withdrawed))
  {
    SetRequestStatus(state, id, Withdrawed)
  }

  function RequestFinalised(state: State, id: RequestId): (r: Outcome)
    ensures r.Failed? <==> state.requests.None?
    ensures state.requests.Some? ==> r == Next(state.(requests := WithStatus(state.requests.value, id, Approved)))
    ensures r.Next? ==>
      && r.state.(requests := state.requests) == state
      && (r.state.requests.None? <==> FindIndex(state.requests.value, id) == -1)
      && (r.state.requests.Some? ==>
            && |r.state.requests.value| == |state.requests.value|
            && r.state.requests.value[FindIndex(state.requests.value, id)].status == Some(Approved))
  {
    SetRequestStatus(state, id, Approved)
  }

  /***** The store *****/

  /** The reducer passed to `app.store`. */
  function Reduce(state: State, event: Event, env: Env): (r: Outcome)
    ensures r.Undefined? ==> event.TokenRequestCreated?
    ensures r.Failed? <==> (event.TokenRequestRefunded? || event.TokenRequestFinalised?) && state.requests.None?
    ensures r.Next? ==>
      r.state.token == state.token && r.state.acceptedTokens == state.acceptedTokens && r.state.ready == state.ready
    ensures !(event.TokenRequestCreated? || event.TokenRequestRefunded? || event.TokenRequestFinalised?) ==>
      r.Next? && r.state.requests == state.requests
  {
    match event
    case AccountsTrigger(account) => Next(UpdateConnectedAccount(state, account))
    case SyncStatusSyncing => Next(state.(isSyncing := Some(true)))
    case SyncStatusSynced => Next(state.(isSyncing := Some(false)))
    case TokenRequestCreated(_, _, _, _, _, _) => NewTokenRequest(state, event, env)
    case TokenRequestRefunded(id) => RequestRefunded(state, id)
    case TokenRequestFinalised(id) => RequestFinalised(state, id)
    case Unrecognised(_) => Next(state)
  }

  /** Folding a log event by event; the fold stops at the first outcome that is not a state. */
  function Replay(state: State, events: seq<Event>, env: Env): (r: Outcome)
    ensures r.Undefined? ==> exists k :: 0 <= k < |events| && events[k].TokenRequestCreated?
    ensures r.Failed? ==>
      exists k :: 0 <= k < |events| && (events[k].TokenRequestRefunded? || events[k].TokenRequestFinalised?)
    ensures r.Next? ==>
      r.state.token == state.token && r.state.acceptedTokens == state.acceptedTokens && r.state.ready == state.ready
    ensures (forall k :: 0 <= k < |events| ==> events[k].Unrecognised?) ==> r == Next(state)
    decreases |events|
  {
    if events == [] then Next(state)
    else
      match Reduce(state, events[0], env)
      case Next(s) =>
        assert forall k :: 0 <= k < |events| - 1 ==> events[1..][k] == events[k + 1];
        Replay(s, events[1..], env)
      case other => other
  }

  /***** Properties of the fold *****/

  lemma SyncStatusSetsOnlyIsSyncing(state: State, env: Env)
    ensures Reduce(state, SyncStatusSyncing, env) == Next(state.(isSyncing := Some(true)))
    ensures Reduce(state, SyncStatusSynced, env) == Next(state.(isSyncing := Some(false)))
  {
  }

  lemma AccountsTriggerSetsOnlyAccount(state: State, account: Option<Address>, env: Env)
    ensures Reduce(state, AccountsTrigger(account), env).Next?
    ensures Reduce(state, AccountsTrigger(account), env).state == state.(account := account)
  {
  }

  lemma UnrecognisedEventKeepsState(state: State, name: string, env: Env)
    ensures Reduce(state, Unrecognised(name), env) == Next(state)
  {
  }

  /** An ether deposit gets fixed metadata: the token directory is never consulted. */
  lemma EtherDepositIgnoresTokenDirectory(state: State, ev: Event, env: Env,
                                          onChain: (Address, TokenField) -> Lookup,
                                          fallback: (Address, TokenField, string) -> string)
    requires ev.TokenRequestCreated? && ev.depositToken == env.ether
    ensures Reduce(state, ev, env) == Reduce(state, ev, env.(onChain := onChain, fallback := fallback))
    ensures Reduce(state, ev, env).Next? && TruthyOption(state.account) ==>
      var entry := Last(Reduce(state, ev, env).state.requests.value);
      entry.depositDecimals == Number(18) && entry.depositName == "Ether" && entry.depositSymbol == "ETH"
  {
  }

  /** The last entry of a non-empty list. */
  function Last(requests: seq<Request>): Request
    requires requests != []
  {
    requests[|requests| - 1]
  }

  /** The id a refund or finalise event carries, and the status it writes. */
  function StatusEventId(ev: Event): RequestId
    requires ev.TokenRequestRefunded? || ev.TokenRequestFinalised?
  {
    if ev.TokenRequestRefunded? then ev.refundedId else ev.finalisedId
  }

  function StatusEventStatus(ev: Event): Status
    requires ev.TokenRequestRefunded? || ev.TokenRequestFinalised?
  {
    if ev.TokenRequestRefunded? then Withdrawed else Approved
  }

  /** A refund marks the first entry with the id as withdrawn and a finalise marks it approved;
      nothing else in the state changes. With no such entry the list becomes undefined. */
  lemma StatusEventMarksFirstMatch(state: State, ev: Event, env: Env)
    requires ev.TokenRequestRefunded? || ev.TokenRequestFinalised?
    requires state.requests.Some?
    ensures var r, requests := Reduce(state, ev, env), state.requests.value;
      var i := FindIndex(requests, StatusEventId(ev));
      && r.Next? && r.state.(requests := state.requests) == state
      && (i == -1 ==> r.state.requests.None?)
      && (i != -1 ==>
            && r.state.requests.Some? && |r.state.requests.value| == |requests|
            && r.state.requests.value[i] == requests[i].(status := Some(StatusEventStatus(ev)))
            && forall k :: 0 <= k < |requests| && k != i ==> r.state.requests.value[k] == requests[k])
  {
  }

  /** Refunding or finalising before any list exists rejects. */
  lemma RefundAndFinaliseFailWithoutList(state: State, id: RequestId, env: Env)
    requires state.requests.None?
    ensures Reduce(state, TokenRequestRefunded(id), env) == Failed
    ensures Reduce(state, TokenRequestFinalised(id), env) == Failed
  {
  }

  /** The statuses the projector itself writes: undefined, pending, withdrawn or approved.
      It never writes `REJECTED` or `EXPIRED`. */
  predicate WrittenStatus(status: Option<Status>)
  {
    status.None? || status.value == Pending || status.value == Withdrawed || status.value == Approved
  }

  predicate OnlyWrittenStatuses(state: State)
  {
    state.requests.Some? ==>
      forall k :: 0 <= k < |state.requests.value| ==> WrittenStatus(state.requests.value[k].status)
  }

  lemma ReducePreservesWrittenStatuses(state: State, event: Event, env: Env)
    requires OnlyWrittenStatuses(state)
    ensures Reduce(state, event, env).Next? ==> OnlyWrittenStatuses(Reduce(state, event, env).state)
  {
    if (event.TokenRequestRefunded? || event.TokenRequestFinalised?) && state.requests.Some? {
      StatusEventMarksFirstMatch(state, event, env);
    }
  }

  lemma {:induction false} ReplayPreservesWrittenStatuses(state: State, events: seq<Event>, env: Env)
    requires OnlyWrittenStatuses(state)
    ensures Replay(state, events, env).Next? ==> OnlyWrittenStatuses(Replay(state, events, env).state)
    decreases |events|
  {
    if events != [] {
      ReducePreservesWrittenStatuses(state, events[0], env);
      if Reduce(state, events[0], env).Next? {
        ReplayPreservesWrittenStatuses(Reduce(state, events[0], env).state, events[1..], env);
      }
    }
  }

  /** Replaying a log in two pieces, the second from the state the first one reached,
      is replaying the whole log. */
  lemma {:induction false} ReplayConcatenation(state: State, history: seq<Event>, live: seq<Event>, env: Env)
    ensures Replay(state, history + live, env) ==
      match Replay(state, history, env)
      case Next(s) => Replay(s, live, env)
      case other => other
    decreases |history|
  {
    if history == [] {
      assert history + live == live;
    } else {
      assert (history + live)[0] == history[0];
      assert (history + live)[1..] == history[1..] + live;
      if Reduce(state, history[0], env).Next? {
        ReplayConcatenation(Reduce(state, history[0], env).state, history[1..], live, env);
      }
    }
  }
}
