/**
 * The records the token-request front end passes around: the request
 * status constants, token metadata, one projected request and the store's
 * state object. JavaScript fields that may be `undefined` are `Option`s.
 */
module Types {

  datatype Option<+T> = None | Some(value: T)

  type Address = string
  type RequestId = string

  /** The `requestStatus` constants. */
  datatype Status = Pending | Withdrawed | Approved | Rejected | Expired

  /** Decimals are the number 18 for ether in a projected request and text elsewhere. */
  datatype Decimals = Number(n: nat) | Text(s: string)

  /** Token metadata as `getTokenData` builds it. */
  datatype TokenData = TokenData(decimals: string, name: string, symbol: string, address: Address)

  /** One entry of `state.requests`. `status` is undefined when the ledger record is empty;
      `actionDate` is read by the table but never written by the projector. */
  datatype Request = Request(
    requestId: RequestId,
    requesterAddress: Address,
    depositToken: Address,
    depositDecimals: Decimals,
    depositName: string,
    depositSymbol: string,
    depositAmount: string,
    requestAmount: string,
    status: Option<Status>,
    date: int,
    actionDate: Option<int>)

  /** The store's state object, field by field. */
  datatype State = State(
    isSyncing: Option<bool>,
    token: Option<TokenData>,
    acceptedTokens: Option<seq<TokenData>>,
    requests: Option<seq<Request>>,
    account: Option<Address>,
    ready: Option<bool>)

  /** The object `{}`. */
  const EmptyState := State(None, None, None, None, None, None)

  /** JavaScript truthiness of a string (an undefined string is written ""). */
  predicate Truthy(s: string) { s != "" }

  /** JavaScript truthiness of a string that may be undefined. */
  predicate TruthyOption(s: Option<string>) { s.Some? && s.value != "" }

  /** JavaScript `a || b` on strings. */
  function Or(a: string, b: string): (r: string)
    ensures Truthy(r) <==> Truthy(a) || Truthy(b)
    ensures Truthy(a) ==> r == a
  {
    if Truthy(a) then a else b
  }
}

/** Generic facts about sequences used by the filters of the front end. */
module Seqs {

  /** `a` is obtained from `b` by deleting elements, keeping the order. */
  predicate IsSubsequence<T(==)>(a: seq<T>, b: seq<T>)
    decreases |b|
  {
    if a == [] then true
    else if b == [] then false
    else if a[0] == b[0] then IsSubsequence(a[1..], b[1..])
    else IsSubsequence(a, b[1..])
  }

  lemma {:induction false} SubsequenceIsNoLonger<T>(a: seq<T>, b: seq<T>)
    requires IsSubsequence(a, b)
    ensures |a| <= |b|
    decreases |b|
  {
    if a != [] {
      if a[0] == b[0] {
        SubsequenceIsNoLonger(a[1..], b[1..]);
      } else {
        SubsequenceIsNoLonger(a, b[1..]);
      }
    }
  }

  /** JavaScript `Array.prototype.filter`: the elements of `s` that `keep` accepts, in order. */
  function Filter<T(==,!new)>(s: seq<T>, keep: T -> bool): (r: seq<T>)
    ensures forall x :: x in r ==> keep(x)
    ensures forall x :: keep(x) ==> multiset(r)[x] == multiset(s)[x]
    ensures IsSubsequence(r, s)
  {
    if s == [] then []
    else
      assert s == [s[0]] + s[1..];
      if keep(s[0]) then [s[0]] + Filter(s[1..], keep)
    else Filter(s[1..], keep)
  }
}
