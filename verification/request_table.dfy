/**
 * The request table's rules: it sorts the list it is given by date,
 * newest first, in place; projects each request to a row; offers Submit
 * and Withdraw by status; and colours the status.
 */
module RequestTable {
  import opened Types
  import Script

  /** Dates never increase along the list. */
  predicate SortedByDateDesc(s: seq<Request>)
  {
    forall i, j :: 0 <= i < j < |s| ==> s[i].date >= s[j].date
  }

  /** Exchanges two adjacent entries. */
  method SwapDown(a: array<Request>, j: int)
    requires 0 < j < a.Length
    modifies a
    ensures a[..] == old(a[..])[j - 1 := old(a[j])][j := old(a[j - 1])]
    ensures multiset(a[..]) == multiset(old(a[..]))
  {
    a[j - 1], a[j] := a[j], a[j - 1];
  }

  /** The dates of `s[lo..hi]` never increase. */
  predicate SortedRange(s: seq<Request>, lo: int, hi: int)
    requires 0 <= lo <= hi <= |s|
  {
    forall k, l :: lo <= k < l < hi ==> s[k].date >= s[l].date
  }

  /** While entry `i` moves down, it sits at `j`: the parts before and from `j` are each
      sorted, and everything before `j` is at least as new as everything after `j`. */
  predicate Descending(s: seq<Request>, j: int, i: int)
    requires 0 <= j <= i < |s|
  {
    && SortedRange(s, 0, j)
    && SortedRange(s, j, i + 1)
    && forall k, l :: 0 <= k < j && j < l <= i ==> s[k].date >= s[l].date
  }

  lemma DescendingAfterSwap(s: seq<Request>, j: int, i: int)
    requires 0 < j <= i < |s| && Descending(s, j, i) && s[j - 1].date < s[j].date
    ensures Descending(s[j - 1 := s[j]][j := s[j - 1]], j - 1, i)
  {
  }

  lemma DescendingAtRest(s: seq<Request>, j: int, i: int)
    requires 0 <= j <= i < |s| && Descending(s, j, i) && (j == 0 || s[j - 1].date >= s[j].date)
    ensures SortedRange(s, 0, i + 1)
  {
    forall k, l | 0 <= k < l < i + 1
      ensures s[k].date >= s[l].date
    {
      if k < j && l == j {
        assert s[k].date >= s[j - 1].date;
      }
    }
  }

  /** Moves entry `i` down into the sorted prefix before it, past every older entry. */
  method InsertDown(a: array<Request>, i: int)
    requires 0 <= i < a.Length && SortedRange(a[..], 0, i)
    modifies a
    ensures SortedRange(a[..], 0, i + 1)
    ensures multiset(a[..]) == multiset(old(a[..]))
  {
    var j := i;
    while j > 0 && a[j - 1].date < a[j].date
      invariant 0 <= j <= i
      invariant multiset(a[..]) == multiset(old(a[..]))
      invariant Descending(a[..], j, i)
    {
      DescendingAfterSwap(a[..], j, i);
      SwapDown(a, j);
      j := j - 1;
    }
    DescendingAtRest(a[..], j, i);
  }

  /** `requests.sort(compareDesc on date)`: reorders the caller's array, newest first. */
  method SortByDateDesc(a: array<Request>)
    modifies a
    ensures SortedByDateDesc(a[..])
    ensures multiset(a[..]) == multiset(old(a[..]))
  {
    var i := 0;
    while i < a.Length
      invariant 0 <= i <= a.Length
      invariant SortedRange(a[..], 0, i)
      invariant multiset(a[..]) == multiset(old(a[..]))
    {
      InsertDown(a, i);
      i := i + 1;
    }
  }

  /** One table entry, in the order the renderer destructures it. */
  datatype Row = Row(
    requestId: RequestId,
    date: int,
    depositAmount: string,
    depositSymbol: string,
    depositToken: Address,
    depositName: string,
    depositDecimals: Decimals,
    requestAmount: string,
    status: Option<Status>,
    actionDate: Option<int>,
    requestedSymbol: string,
    requestedDecimals: string)

  /** The `map` from the sorted requests to rows; the last two fields come from the app's token. */
  function Rows(requests: seq<Request>, token: TokenData): (rows: seq<Row>)
    ensures |rows| == |requests|
    ensures forall i :: 0 <= i < |rows| ==>
      var r := requests[i];
      rows[i] == Row(r.requestId, r.date, r.depositAmount, r.depositSymbol, r.depositToken, r.depositName,
                     r.depositDecimals, r.requestAmount, r.status, r.actionDate, token.symbol, token.decimals)
  {
    seq(|requests|, i requires 0 <= i < |requests| =>
      var r := requests[i];
      Row(r.requestId, r.date, r.depositAmount, r.depositSymbol, r.depositToken, r.depositName,
          r.depositDecimals, r.requestAmount, r.status, r.actionDate, token.symbol, token.decimals))
  }

  /** The table's entries: nothing when the list is absent or empty, otherwise the rows of
      the list after sorting it in place. */
  method Entries(requests: array?<Request>, token: TokenData) returns (entries: Option<seq<Row>>)
    modifies requests
    ensures entries.None? <==> requests == null || requests.Length == 0
    ensures requests != null ==> multiset(requests[..]) == multiset(old(requests[..]))
    ensures entries.Some? ==> SortedByDateDesc(requests[..]) && entries.value == Rows(requests[..], token)
  {
    if requests == null || requests.Length == 0 {
      return None;
    }
    SortByDateDesc(requests);
    entries := Some(Rows(requests[..], token));
  }

  /** The Submit item is shown for pending requests only. */
  predicate OffersSubmit(status: Option<Status>): (offered: bool)
    ensures offered <==> StatusColour(status) == InfoPermissionsIcon
  {
    status == Some(Pending)
  }

  /** The Withdraw item is shown for pending and expired requests. */
  predicate OffersWithdraw(status: Option<Status>): (offered: bool)
    ensures offered ==> StatusColour(status) != Positive
  {
    status == Some(Pending) || status == Some(Expired)
  }

  /** Withdraw is offered wherever Submit is, and beyond that only for expired requests. */
  lemma WithdrawExtendsSubmit(status: Option<Status>)
    ensures OffersSubmit(status) ==> OffersWithdraw(status)
    ensures OffersWithdraw(status) && !OffersSubmit(status) <==> status == Some(Expired)
  {
  }

  /** On a list the projector built, Withdraw and Submit are offered for the same requests,
      since the projector never writes the expired status. */
  lemma ProjectedRowsOfferWithdrawWithSubmit(state: State)
    requires Script.OnlyWrittenStatuses(state) && state.requests.Some?
    ensures forall k :: 0 <= k < |state.requests.value| ==>
      (OffersWithdraw(state.requests.value[k].status) <==> OffersSubmit(state.requests.value[k].status))
  {
  }

  datatype Colour = InfoPermissionsIcon | Negative | Positive

  /** The `Status` colour switch. */
  function StatusColour(status: Option<Status>): (colour: Colour)
    ensures colour == InfoPermissionsIcon <==> status == Some(Pending)
    ensures colour == Negative <==> status == Some(Rejected) || status == Some(Expired)
    ensures colour == Positive <==> !(status == Some(Pending) || status == Some(Rejected) || status == Some(Expired))
  {
    match status
    case Some(Pending) => InfoPermissionsIcon
    case Some(Rejected) => Negative
    case Some(Approved) => Positive
    case Some(Expired) => Negative
    case _ => Positive
  }
}
