/** internal/client/delegator.go: the delegations of one collator and the
    revoke (or decrease) each delegator has scheduled. */
module Delegator {
  import opened Wrappers
  import opened GoStrings
  import opened Token
  import opened Sorting

  /** `delegationScheduledRequestsUnmarshal`: a scheduled request of one
      delegator; `action` maps the action name ("Revoke", "Decrease") to its
      amount. */
  datatype ScheduledRequest = ScheduledRequest(delegator: string, round: nat, action: map<string, int>)

  /** `candidateDelegationUnmarshal`: one top delegation of a collator. */
  datatype Delegation = Delegation(owner: string, amount: int)

  /** `DelegatorState`: a delegation together with its scheduled revoke. */
  datatype DelegatorState = DelegatorState(
    address: string,
    amount: TokenBalance,
    revokeAmount: TokenBalance,
    revokeReason: string,
    revokeRound: nat)

  /** A request that sets the revoke of `address`: its delegator equals the
      address ignoring case and it names at least one action. */
  predicate SetsRevoke(r: ScheduledRequest, address: string)
  {
    EqualFold(r.delegator, address) && |r.action| > 0
  }

  /** The last of the first `n` requests that sets the revoke of `address`. */
  function LastSetting(requests: seq<ScheduledRequest>, address: string, n: nat): (m: Option<nat>)
    requires n <= |requests|
    ensures m.None? <==> forall k :: 0 <= k < n ==> !SetsRevoke(requests[k], address)
    ensures m.Some? ==> m.value < n && SetsRevoke(requests[m.value], address)
    ensures m.Some? ==> forall k :: m.value < k < n ==> !SetsRevoke(requests[k], address)
  {
    if n == 0 then None
    else if SetsRevoke(requests[n - 1], address) then Some(n - 1)
    else LastSetting(requests, address, n - 1)
  }

  /** What `getDelegatorState` promises of its result: the given address and
      a copy of the given total; the revoke fields are those of the last
      request that sets them (one of its actions, with that action's
      amount), or zero, "" and round 0 when no request does. */
  ghost predicate StateFor(s: DelegatorState, requests: seq<ScheduledRequest>, address: string, total: int, info: TokenInfo)
  {
    s.address == address && s.amount == AsBalance(total, Some(info)) &&
    match LastSetting(requests, address, |requests|)
    case None =>
      s.revokeAmount == AsBalance(0, Some(info)) && s.revokeReason == "" && s.revokeRound == 0
    case Some(m) =>
      s.revokeReason in requests[m].action &&
      s.revokeAmount == AsBalance(requests[m].action[s.revokeReason], Some(info)) &&
      s.revokeRound == requests[m].round
  }

  /** `getDelegatorState`: scans the requests in order; each matching request
      overwrites the revoke with the first action met when ranging over its
      action map (Go's map order is unspecified, so any action may be met
      first). */
  method GetDelegatorState(requests: seq<ScheduledRequest>, address: string, total: int, info: TokenInfo)
    returns (s: DelegatorState)
    ensures StateFor(s, requests, address, total, info)
  {
    var revokeAmount := 0;
    var revokeReason := "";
    var revokeRound := 0;
    for k := 0 to |requests|
      invariant LastSetting(requests, address, k).None? ==>
        revokeAmount == 0 && revokeReason == "" && revokeRound == 0
      invariant LastSetting(requests, address, k).Some? ==>
        var r := requests[LastSetting(requests, address, k).value];
        revokeReason in r.action && revokeAmount == r.action[revokeReason] && revokeRound == r.round
    {
      var request := requests[k];
      if EqualFold(request.delegator, address) && |request.action| > 0 {
        assert request.action.Keys != {};
        var action :| action in request.action;
        revokeReason := action;
        revokeRound := request.round;
        revokeAmount := request.action[action];
      }
    }
    s := DelegatorState(address, AsBalance(total, Some(info)), AsBalance(revokeAmount, Some(info)),
                        revokeReason, revokeRound);
  }

  /** The amount a delegation state holds; every state built here holds one,
      so the fallback 0 is never used. */
  function AmountOf(d: DelegatorState): int
  {
    if d.amount.balance.Some? then d.amount.balance.value else 0
  }

  /** The order of `getDelegations`: larger amounts first. */
  function AmountNotBelow(x: DelegatorState, y: DelegatorState): bool
  {
    AmountOf(x) >= AmountOf(y)
  }

  lemma AmountNotBelowIsPreorder()
    ensures TotalPreorder(AmountNotBelow)
  {
  }

  /** `getDelegations`: reads the collator's top delegations and the
      scheduled requests; a failure of either read is returned as the error
      with no list. Otherwise there is one state per top delegation, built by
      `GetDelegatorState`, listed by non-increasing amount. */
  method GetDelegations(top: Outcome<seq<Delegation>>, requests: Outcome<seq<ScheduledRequest>>, info: TokenInfo)
    returns (r: Outcome<seq<DelegatorState>>, ghost perm: seq<nat>, ghost inv: seq<nat>)
    ensures top.Err? ==> r == Err(top.error)
    ensures top.Ok? && requests.Err? ==> r == Err(requests.error)
    ensures top.Ok? && requests.Ok? ==> r.Ok? && |r.value| == |top.value|
    ensures top.Ok? && requests.Ok? ==>
      Bijection(perm, inv, |top.value|) &&
      forall k :: 0 <= k < |r.value| ==>
        StateFor(r.value[k], requests.value, top.value[perm[k]].owner, top.value[perm[k]].amount, info)
    ensures r.Ok? ==> forall i, j :: 0 <= i < j < |r.value| ==>
      r.value[i].amount.balance.Some? && r.value[j].amount.balance.Some? &&
      r.value[i].amount.balance.value >= r.value[j].amount.balance.value
  {
    perm, inv := [], [];
    if top.Err? {
      return Err(top.error), perm, inv;
    }
    if requests.Err? {
      return Err(requests.error), perm, inv;
    }
    var delegations := top.value;
    var cd: seq<DelegatorState> := [];
    for k := 0 to |delegations|
      invariant |cd| == k
      invariant forall m :: 0 <= m < k ==>
        StateFor(cd[m], requests.value, delegations[m].owner, delegations[m].amount, info)
    {
      var state := GetDelegatorState(requests.value, delegations[k].owner, delegations[k].amount, info);
      cd := cd + [state];
    }
    var sorted := new DelegatorState[|cd|](k requires 0 <= k < |cd| => cd[k]);
    assert sorted[..] == cd;
    AmountNotBelowIsPreorder();
    perm, inv := SortBy(sorted, AmountNotBelow);
    r := Ok(sorted[..]);
    forall i, j | 0 <= i < j < |r.value|
      ensures r.value[i].amount.balance.Some? && r.value[j].amount.balance.Some? &&
              r.value[i].amount.balance.value >= r.value[j].amount.balance.value
    {
      assert AmountNotBelow(sorted[i], sorted[j]);
      assert sorted[i] == cd[perm[i]] && sorted[j] == cd[perm[j]];
    }
  }
}
