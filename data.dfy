/** internal/server/data.go: the snapshot the HTTP server publishes. An
    update replaces it with a freshly fetched collator pool, but only when
    the pool has as many collators as the snapshot's candidate pool; the
    queries filter it by address, ignoring case. */
module Data {
  import opened Wrappers
  import opened GoInts
  import opened GoStrings
  import opened Token
  import opened Delegator
  import opened Collators
  import opened Snap
  import opened PoolFetch

  /** The `Server` text of every update, as it appears in data.go:171 (the
      characters between the words are the ones written there). */
  const SERVER: string := "MoonCli by \U{F0}\U{178}\U{203A}\U{B8} Zooper Corp \U{F0}\U{178}\U{203A}\U{B8}"

  /** The error of an update whose pool size does not match. */
  const POOL_SIZE_MISMATCH: Error := "pool size does not match"

  /** `ChainInfo` with `ChainUpdate` flattened: `tsSecs` is the update's
      start in whole seconds and `lenSecs` its duration in whole seconds
      (both floats in Go holding integers small enough to be exact). */
  datatype ChainInfo = ChainInfo(
    server: string,
    tsSecs: int,
    lenSecs: nat,
    chain: string,
    specVersion: int,
    snapBlock: SnapBlock,
    snapRound: SnapRound,
    snapStaking: SnapStaking,
    tokenInfo: TokenInfo)

  const ZERO_CHAIN_INFO: ChainInfo :=
    ChainInfo("", 0, 0, "", 0, SnapBlock(0, "", 0), SnapRound(0, 0, 0, 0), SnapStaking(0, 0), TokenInfo(0, ""))

  /** `CollatorData`. */
  datatype CollatorData = CollatorData(info: ChainInfo, collators: seq<CollatorInfo>)

  /** `DelegationInfo`: one delegation together with its collator. */
  datatype DelegationInfo = DelegationInfo(
    collator: string,
    address: string,
    amount: TokenBalance,
    revokeAmount: TokenBalance,
    revokeReason: string,
    revokeRound: nat)

  /** `DelegationData`. */
  datatype DelegationData = DelegationData(info: ChainInfo, delegations: seq<DelegationInfo>)

  /** What a connected client (`NewClientWithExternalCache`) knows: the
      chain name, the snapshot and the token, and the storage reads the
      pool fetch makes at the snapshot block. */
  datatype ChainClient = ChainClient(
    chain: string,
    snapBlock: SnapBlock,
    snapRound: SnapRound,
    snapStaking: SnapStaking,
    tokenInfo: TokenInfo,
    storage: CollatorReads)

  /** How `Update` ends: it returns (nil or an error), or the pool fetch
      panicked or never returned. */
  datatype UpdateEnd = Returned(err: Option<Error>) | Halted

  /** The `Info` a successful update publishes. */
  function InfoAfter(c: ChainClient, startMillis: int, endMillis: int): (i: ChainInfo)
    ensures i.server == SERVER && i.specVersion == 0 && i.chain == c.chain
    ensures i.snapBlock == c.snapBlock && i.snapRound == c.snapRound
    ensures i.snapStaking == c.snapStaking && i.tokenInfo == c.tokenInfo
    ensures startMillis >= 0 ==> i.tsSecs * 1000 <= startMillis < i.tsSecs * 1000 + 1000
    ensures 0 <= endMillis - startMillis <= MAX_U32 ==>
      i.lenSecs * 1000 <= endMillis - startMillis < i.lenSecs * 1000 + 1000
  {
    ChainInfo(SERVER, Quo(startMillis, 1000), U32(endMillis - startMillis) / 1000, c.chain, 0,
              c.snapBlock, c.snapRound, c.snapStaking, c.tokenInfo)
  }

  // ---------------------------------------------------------------------
  // Query specifications
  // ---------------------------------------------------------------------

  /** The collators whose address equals `address` ignoring case, in stored
      order. */
  function CollatorsMatching(cs: seq<CollatorInfo>, address: string): (r: seq<CollatorInfo>)
    ensures |r| <= |cs|
  {
    if cs == [] then []
    else
      var init := CollatorsMatching(cs[..|cs| - 1], address);
      if EqualFold(cs[|cs| - 1].address, address) then init + [cs[|cs| - 1]] else init
  }

  /** A collator is listed exactly when it is stored and matches. */
  lemma {:induction false} CollatorsMatchingMembers(cs: seq<CollatorInfo>, address: string, c: CollatorInfo)
    ensures c in CollatorsMatching(cs, address) <==> c in cs && EqualFold(c.address, address)
  {
    if cs != [] {
      var init := cs[..|cs| - 1];
      CollatorsMatchingMembers(init, address, c);
      assert cs == init + [cs[|cs| - 1]];
    }
  }

  /** The collator query finds something exactly when some stored collator
      has the address, ignoring case. */
  lemma CollatorsFound(cs: seq<CollatorInfo>, address: string)
    ensures CollatorsMatching(cs, address) != [] <==> exists x :: x in cs && EqualFold(x.address, address)
  {
    var found := CollatorsMatching(cs, address);
    if found != [] {
      CollatorsMatchingMembers(cs, address, found[0]);
    } else {
      forall x | x in cs && EqualFold(x.address, address)
        ensures false
      {
        CollatorsMatchingMembers(cs, address, x);
      }
    }
  }

  /** The filter keeps the stored order: filtering a concatenation filters
      each part. */
  lemma {:induction false} CollatorsMatchingAppend(cs1: seq<CollatorInfo>, cs2: seq<CollatorInfo>, address: string)
    ensures CollatorsMatching(cs1 + cs2, address) == CollatorsMatching(cs1, address) + CollatorsMatching(cs2, address)
  {
    if cs2 == [] {
      assert cs1 + cs2 == cs1;
    } else {
      var init := cs2[..|cs2| - 1];
      CollatorsMatchingAppend(cs1, init, address);
      assert (cs1 + cs2)[..|cs1 + cs2| - 1] == cs1 + init;
    }
  }

  /** Queries equal up to case give the same result. */
  lemma {:induction false} CollatorsMatchingFolds(cs: seq<CollatorInfo>, a: string, b: string)
    requires EqualFold(a, b)
    ensures CollatorsMatching(cs, a) == CollatorsMatching(cs, b)
  {
    if cs != [] {
      CollatorsMatchingFolds(cs[..|cs| - 1], a, b);
      var x := cs[|cs| - 1].address;
      EqualFoldIsFoldEquality(x, a);
      EqualFoldIsFoldEquality(x, b);
      EqualFoldIsFoldEquality(a, b);
    }
  }

  /** The row `GetDelegations` lists for delegation `d` of collator `c`. */
  function RowOf(c: CollatorInfo, d: DelegatorState): (r: DelegationInfo)
    ensures r.collator == c.address && r.address == d.address
    ensures r.amount == d.amount && r.revokeAmount == d.revokeAmount &&
            r.revokeReason == d.revokeReason && r.revokeRound == d.revokeRound
  {
    DelegationInfo(c.address, d.address, d.amount, d.revokeAmount, d.revokeReason, d.revokeRound)
  }

  /** A delegation concerns `address` when its collator or its delegator is
      that address, ignoring case. */
  predicate Concerns(c: CollatorInfo, d: DelegatorState, address: string)
    ensures Concerns(c, d, address) <==> Fold(c.address) == Fold(address) || Fold(d.address) == Fold(address)
  {
    EqualFoldIsFoldEquality(c.address, address);
    EqualFoldIsFoldEquality(d.address, address);
    EqualFold(c.address, address) || EqualFold(d.address, address)
  }

  /** The rows of the delegations `ds` of collator `c` that concern
      `address`, in delegation order. */
  function RowsOf(c: CollatorInfo, ds: seq<DelegatorState>, address: string): (r: seq<DelegationInfo>)
    ensures |r| <= |ds|
    ensures forall k :: 0 <= k < |r| ==>
              r[k].collator == c.address && (EqualFold(c.address, address) || EqualFold(r[k].address, address))
  {
    if ds == [] then []
    else
      var init := RowsOf(c, ds[..|ds| - 1], address);
      if Concerns(c, ds[|ds| - 1], address) then init + [RowOf(c, ds[|ds| - 1])] else init
  }

  /** The rows of every collator, collator after collator. */
  function DelegationsMatching(cs: seq<CollatorInfo>, address: string): (rows: seq<DelegationInfo>)
    ensures forall k :: 0 <= k < |rows| ==> EqualFold(rows[k].collator, address) || EqualFold(rows[k].address, address)
  {
    if cs == [] then []
    else DelegationsMatching(cs[..|cs| - 1], address) + RowsOf(cs[|cs| - 1], cs[|cs| - 1].delegations, address)
  }

  /** Delegation `j` of collator `i` concerns `address` and gives row `r`. */
  predicate Listed(cs: seq<CollatorInfo>, i: int, j: int, address: string, r: DelegationInfo)
  {
    0 <= i < |cs| && 0 <= j < |cs[i].delegations| &&
    Concerns(cs[i], cs[i].delegations[j], address) && r == RowOf(cs[i], cs[i].delegations[j])
  }

  lemma {:induction false} RowsOfMembers(c: CollatorInfo, ds: seq<DelegatorState>, address: string, r: DelegationInfo)
    ensures r in RowsOf(c, ds, address) <==>
            exists j :: 0 <= j < |ds| && Concerns(c, ds[j], address) && r == RowOf(c, ds[j])
  {
    if ds != [] {
      var init := ds[..|ds| - 1];
      RowsOfMembers(c, init, address, r);
      if exists j :: 0 <= j < |ds| && Concerns(c, ds[j], address) && r == RowOf(c, ds[j]) {
        var j :| 0 <= j < |ds| && Concerns(c, ds[j], address) && r == RowOf(c, ds[j]);
        if j < |init| {
          assert init[j] == ds[j];
        }
      }
    }
  }

  /** Every listed delegation gives a row of the result. */
  lemma {:induction false} ListedIsMatched(cs: seq<CollatorInfo>, address: string, r: DelegationInfo, i: int, j: int)
    requires Listed(cs, i, j, address, r)
    ensures r in DelegationsMatching(cs, address)
  {
    var last := |cs| - 1;
    if i < last {
      assert Listed(cs[..last], i, j, address, r);
      ListedIsMatched(cs[..last], address, r, i, j);
    } else {
      RowsOfMembers(cs[last], cs[last].delegations, address, r);
    }
  }

  /** Every row of the result comes from a listed delegation. */
  lemma {:induction false} MatchedIsListed(cs: seq<CollatorInfo>, address: string, r: DelegationInfo)
    requires r in DelegationsMatching(cs, address)
    ensures exists i, j :: Listed(cs, i, j, address, r)
  {
    var last := |cs| - 1;
    var init := cs[..last];
    if r in DelegationsMatching(init, address) {
      MatchedIsListed(init, address, r);
      var i, j :| Listed(init, i, j, address, r);
      assert Listed(cs, i, j, address, r);
    } else {
      RowsOfMembers(cs[last], cs[last].delegations, address, r);
      var j :| 0 <= j < |cs[last].delegations| && Concerns(cs[last], cs[last].delegations[j], address) &&
               r == RowOf(cs[last], cs[last].delegations[j]);
      assert Listed(cs, last, j, address, r);
    }
  }

  /** A row is listed exactly when some delegation of some stored collator
      concerns the address and gives that row. */
  lemma DelegationsMatchingMembers(cs: seq<CollatorInfo>, address: string, r: DelegationInfo)
    ensures r in DelegationsMatching(cs, address) <==> exists i, j :: Listed(cs, i, j, address, r)
  {
    if r in DelegationsMatching(cs, address) {
      MatchedIsListed(cs, address, r);
    }
    if exists i, j :: Listed(cs, i, j, address, r) {
      var i, j :| Listed(cs, i, j, address, r);
      ListedIsMatched(cs, address, r, i, j);
    }
  }

  /** The delegation query finds something exactly when some delegation is
      listed for the address. */
  lemma DelegationsFound(cs: seq<CollatorInfo>, address: string)
    ensures DelegationsMatching(cs, address) != [] <==> exists i, j, row :: Listed(cs, i, j, address, row)
  {
    var found := DelegationsMatching(cs, address);
    if found != [] {
      DelegationsMatchingMembers(cs, address, found[0]);
    } else {
      forall i, j, row | Listed(cs, i, j, address, row)
        ensures false
      {
        DelegationsMatchingMembers(cs, address, row);
      }
    }
  }

  /** When the query is the collator's own address every delegation of that
      collator is listed, in delegation order. */
  lemma {:induction false} CollatorQueryListsAll(c: CollatorInfo, ds: seq<DelegatorState>, address: string)
    requires EqualFold(c.address, address)
    ensures |RowsOf(c, ds, address)| == |ds|
    ensures forall k :: 0 <= k < |ds| ==> RowsOf(c, ds, address)[k] == RowOf(c, ds[k])
  {
    if ds != [] {
      CollatorQueryListsAll(c, ds[..|ds| - 1], address);
    }
  }

  // ---------------------------------------------------------------------
  // The published state
  // ---------------------------------------------------------------------

  /** `ChainData`: the published info and collators, the update flag
      (`updateLock`) and the staleness bound the health check uses. */
  class ChainData {
    var info: ChainInfo
    var collators: seq<CollatorInfo>
    var updating: bool
    var maxUpdateDelta: int

    /** `NewChainData`: nothing published yet. */
    constructor(maxUpdateDelta: int)
      ensures info == ZERO_CHAIN_INFO && collators == [] && !updating
      ensures this.maxUpdateDelta == maxUpdateDelta
    {
      info := ZERO_CHAIN_INFO;
      collators := [];
      updating := false;
      this.maxUpdateDelta := maxUpdateDelta;
    }

    /** `GetInfo`: a copy of the published info. */
    function GetInfo(): (r: ChainInfo)
      reads this
      ensures r == info
    {
      info
    }

    /** `GetCollators`: the published info and the whole collator list. */
    function GetCollators(): (r: CollatorData)
      reads this
      ensures r.info == info && r.collators == collators
    {
      CollatorData(info, collators)
    }

    /** `GetCollator`: the published info and the collators whose address
        equals `address` ignoring case, in stored order. */
    method GetCollator(address: string) returns (r: CollatorData)
      ensures r.info == info && r.collators == CollatorsMatching(collators, address)
    {
      var filtered := [];
      for i := 0 to |collators|
        invariant filtered == CollatorsMatching(collators[..i], address)
      {
        assert collators[..i + 1][..i] == collators[..i];
        if EqualFold(collators[i].address, address) {
          filtered := filtered + [collators[i]];
        }
      }
      assert collators[..|collators|] == collators;
      r := CollatorData(info, filtered);
    }

    /** `GetDelegations`: the published info and, collator after collator
        and in delegation order, a row for every delegation whose collator
        or delegator equals `address` ignoring case. */
    method GetDelegations(address: string) returns (r: DelegationData)
      ensures r.info == info && r.delegations == DelegationsMatching(collators, address)
    {
      var result := [];
      for i := 0 to |collators|
        invariant result == DelegationsMatching(collators[..i], address)
      {
        var collator := collators[i];
        assert collators[..i + 1][..i] == collators[..i];
        ghost var before := result;
        for j := 0 to |collator.delegations|
          invariant result == before + RowsOf(collator, collator.delegations[..j], address)
        {
          var delegation := collator.delegations[j];
          assert collator.delegations[..j + 1][..j] == collator.delegations[..j];
          if EqualFold(collator.address, address) || EqualFold(delegation.address, address) {
            result := result + [RowOf(collator, delegation)];
          }
        }
        assert collator.delegations[..|collator.delegations|] == collator.delegations;
      }
      assert collators[..|collators|] == collators;
      r := DelegationData(info, result);
    }

    /** `Update`: when an update is already running, nothing happens and
        nil is returned. Otherwise a client is connected, and a connection
        error is returned with nothing published. The pool is fetched with
        every candidate, revokes on (`FetchCollatorPool`, at the client's
        snapshot round and revoke delay); a fetch error is returned with
        nothing published, and so is the size error when the pool does not
        hold exactly `SnapStaking.Total` collators (a failed candidate fetch
        yields an empty pool, which this catches). An empty candidate pool
        leaves nothing to fetch, and `computeRevokes` then panics, which
        ends the server. Else the fetched collators, ordered by counted
        stake and carrying the revoke projection, and the client's snapshot
        are published. The update flag is as before afterwards, except
        when the revoke projection never ends: that update never returns
        and keeps the flag, so every later `Update` returns nil at once.
        `startMillis` and `endMillis` are the two clock readings. */
    method Update(historyRounds: nat, startMillis: int, endMillis: int, connect: Outcome<ChainClient>)
      returns (r: UpdateEnd, ghost pool: seq<CandidatePoolEntry>, ghost fetched: PoolOutcome,
              ghost sorted: seq<CollatorInfo>)
      requires connect.Ok? ==> IsU32(connect.value.snapRound.number) && IsU32(connect.value.snapRound.revokeDelay)
      modifies this
      ensures updating == (old(updating) || (connect.Ok? && fetched.Diverged?))
      ensures maxUpdateDelta == old(maxUpdateDelta)
      ensures old(updating) ==> r == Returned(None) && info == old(info) && collators == old(collators)
      ensures !old(updating) && connect.Err? ==>
        r == Returned(Some(connect.error)) && info == old(info) && collators == old(collators)
      ensures !old(updating) && connect.Ok? && fetched.Failed? ==>
        r == Returned(Some(fetched.error)) && info == old(info) && collators == old(collators)
      ensures !old(updating) && connect.Ok? && (fetched.Panicked? || fetched.Diverged?) ==>
        r == Halted && info == old(info) && collators == old(collators)
      ensures !old(updating) && connect.Ok? && fetched.Fetched? &&
              |fetched.pool.collators| != connect.value.snapStaking.total ==>
        r == Returned(Some(POOL_SIZE_MISMATCH)) && info == old(info) && collators == old(collators)
      ensures !old(updating) && connect.Ok? && fetched.Fetched? &&
              |fetched.pool.collators| == connect.value.snapStaking.total ==>
        r == Returned(None) && collators == fetched.pool.collators &&
        info == InfoAfter(connect.value, startMillis, endMillis)
      ensures !old(updating) && connect.Ok? ==>
        var c := connect.value;
        PoolFetched(c.storage, c.snapBlock.hash, c.snapRound.number, c.snapRound.revokeDelay,
                    PoolConfig("", historyRounds, true), fetched, pool, sorted)
    {
      pool, fetched, sorted := [], Failed(""), [];
      if updating {
        return Returned(None), pool, fetched, sorted;
      }
      updating := true;
      if connect.Err? {
        updating := false;
        return Returned(Some(connect.error)), pool, fetched, sorted;
      }
      var c := connect.value;
      var outcome;
      outcome, pool, sorted := FetchCollatorPool(c.storage, c.snapBlock.hash, c.snapRound.number,
                                                 c.snapRound.revokeDelay, PoolConfig("", historyRounds, true));
      fetched := outcome;
      match outcome {
      case Failed(e) =>
        r := Returned(Some(e));
      case Panicked =>
        r := Halted;
      case Diverged =>
        // the fetch never returns, so the update flag is never cleared
        return Halted, pool, fetched, sorted;
      case Fetched(p) =>
        if |p.collators| != c.snapStaking.total {
          r := Returned(Some(POOL_SIZE_MISMATCH));
        } else {
          info := InfoAfter(c, startMillis, endMillis);
          collators := p.collators;
          r := Returned(None);
        }
      }
      updating := false;
    }
  }
}
