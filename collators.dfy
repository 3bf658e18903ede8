/** internal/client/collators.go: the candidate pool, the rank of a collator
    in it, the assembled collator pool and the projection of scheduled
    revokes over the coming rounds. */
module Collators {
  import opened Wrappers
  import opened GoInts
  import opened GoStrings
  import opened Token
  import opened Balance
  import opened Delegator
  import opened Sorting
  import Async

  /** The hash of a block, as the text the RPC client works with. */
  type BlockHash = string

  /** `CandidatePoolEntry`: a candidate and its total backing stake. */
  datatype CandidatePoolEntry = CandidatePoolEntry(owner: string, amount: int)

  /** `CollatorHistory`: rank, produced blocks and counted stake in a past round. */
  datatype CollatorHistory = CollatorHistory(rank: nat, blocks: nat, counted: TokenBalance)

  /** `RevokeRound`: the projected rank, counted stake and revoked amount of a
      collator in a coming round. */
  datatype RevokeRound = RevokeRound(rank: nat, counted: TokenBalance, amount: TokenBalance)

  /** `CollatorInfo`. */
  datatype CollatorInfo = CollatorInfo(
    address: string,
    selected: bool,
    rank: nat,
    blocks: nat,
    counted: TokenBalance,
    minBond: TokenBalance,
    balance: AccountBalance,
    display: string,
    history: map<nat, CollatorHistory>,
    delegations: seq<DelegatorState>,
    revokes: map<nat, RevokeRound>)

  /** `CollatorPool`. */
  datatype CollatorPool = CollatorPool(selectedSize: nat, roundNumber: nat, collators: seq<CollatorInfo>)

  /** `config.CollatorsPoolConfig`. */
  datatype PoolConfig = PoolConfig(address: string, historyRounds: nat, revokes: bool)

  const ZERO_REVOKE_ROUND: RevokeRound := RevokeRound(0, ZERO_TOKEN_BALANCE, ZERO_TOKEN_BALANCE)
  const ZERO_COLLATOR_INFO: CollatorInfo :=
    CollatorInfo("", false, 0, 0, ZERO_TOKEN_BALANCE, ZERO_TOKEN_BALANCE, ZERO_ACCOUNT_BALANCE, "",
                 map[], [], map[])
  const ZERO_POOL: CollatorPool := CollatorPool(0, 0, [])

  // ---------------------------------------------------------------------
  // FetchSortedCandidatePool

  /** The order of the candidate pool: smaller stakes first. */
  function AmountNotAbove(x: CandidatePoolEntry, y: CandidatePoolEntry): bool
  {
    x.amount <= y.amount
  }

  lemma AmountNotAboveIsPreorder()
    ensures TotalPreorder(AmountNotAbove)
  {
  }

  predicate Ascending(pool: seq<CandidatePoolEntry>)
  {
    forall i, j :: 0 <= i < j < |pool| ==> pool[i].amount <= pool[j].amount
  }

  /** `FetchSortedCandidatePool`: `read` is the decoded `CandidatePool`
      storage at the block. A read error is returned; otherwise the entries
      are sorted by ascending stake (the ghost results say where each entry
      came from). */
  method FetchSortedCandidatePool(read: Outcome<seq<CandidatePoolEntry>>)
    returns (r: Outcome<seq<CandidatePoolEntry>>, ghost perm: seq<nat>, ghost inv: seq<nat>)
    ensures read.Err? ==> r == Err(read.error)
    ensures read.Ok? ==> r.Ok? && Ascending(r.value) && Rearranges(r.value, read.value, perm, inv)
  {
    perm, inv := [], [];
    if read.Err? {
      return Err(read.error), perm, inv;
    }
    var pool := read.value;
    var a := new CandidatePoolEntry[|pool|](k requires 0 <= k < |pool| => pool[k]);
    assert a[..] == pool;
    AmountNotAboveIsPreorder();
    perm, inv := SortBy(a, AmountNotAbove);
    r := Ok(a[..]);
    forall i, j | 0 <= i < j < a.Length ensures a[i].amount <= a[j].amount {
      assert AmountNotAbove(a[i], a[j]);
    }
  }

  // ---------------------------------------------------------------------
  // getAddressRank

  /** The first index at or after `from` whose owner equals `address`
      ignoring case. */
  function FirstOwnerMatch(pool: seq<CandidatePoolEntry>, address: string, from: nat): (m: Option<nat>)
    requires from <= |pool|
    decreases |pool| - from
    ensures m.Some? ==> from <= m.value < |pool| && EqualFold(pool[m.value].owner, address)
    ensures m.Some? ==> forall k :: from <= k < m.value ==> !EqualFold(pool[k].owner, address)
    ensures m.None? ==> forall k :: from <= k < |pool| ==> !EqualFold(pool[k].owner, address)
  {
    if from == |pool| then None
    else if EqualFold(pool[from].owner, address) then Some(from)
    else FirstOwnerMatch(pool, address, from + 1)
  }

  /** `getAddressRank`: on a pool sorted by ascending stake, `len - i` for
      the first owner equal to `address` ignoring case at index `i`, and
      `len` when there is none. */
  function GetAddressRank(pool: seq<CandidatePoolEntry>, address: string): (rank: nat)
    ensures rank <= |pool|
    ensures (exists k :: 0 <= k < |pool| && EqualFold(pool[k].owner, address)) ==> 1 <= rank
    ensures (forall k :: 0 <= k < |pool| ==> !EqualFold(pool[k].owner, address)) ==> rank == |pool|
  {
    match FirstOwnerMatch(pool, address, 0)
    case Some(i) => |pool| - i
    case None => |pool|
  }

  /** Queries equal ignoring case find the same first owner. */
  lemma {:induction false} FirstOwnerMatchFolds(pool: seq<CandidatePoolEntry>, a: string, b: string, from: nat)
    requires from <= |pool| && EqualFold(a, b)
    decreases |pool| - from
    ensures FirstOwnerMatch(pool, a, from) == FirstOwnerMatch(pool, b, from)
  {
    if from < |pool| {
      var owner := pool[from].owner;
      assert EqualFold(owner, a) <==> EqualFold(owner, b) by {
        if EqualFold(owner, a) { EqualFoldTransitive(owner, a, b); }
        if EqualFold(owner, b) { EqualFoldTransitive(owner, b, a); }
      }
      FirstOwnerMatchFolds(pool, a, b, from + 1);
    }
  }

  /** The rank of an address does not depend on the case it is written in. */
  lemma RankFolds(pool: seq<CandidatePoolEntry>, a: string, b: string)
    requires EqualFold(a, b)
    ensures GetAddressRank(pool, a) == GetAddressRank(pool, b)
  {
    FirstOwnerMatchFolds(pool, a, b, 0);
  }

  /** No two owners of the pool are equal ignoring case. */
  predicate DistinctOwners(pool: seq<CandidatePoolEntry>)
  {
    forall i, j :: 0 <= i < j < |pool| ==> !EqualFold(pool[i].owner, pool[j].owner)
  }

  /** With distinct owners, the entry at index `i` has rank `len - i`. */
  lemma RankOfEntry(pool: seq<CandidatePoolEntry>, i: nat)
    requires DistinctOwners(pool) && i < |pool|
    ensures GetAddressRank(pool, pool[i].owner) == |pool| - i
  {
    var m := FirstOwnerMatch(pool, pool[i].owner, 0);
    assert EqualFold(pool[i].owner, pool[i].owner);
    assert m.Some?;
  }

  /** Ranks of distinct owners are distinct and lie in `1 .. len`; the
      largest stake of an ascending pool ranks first, and a strictly larger
      stake ranks strictly better. */
  lemma RanksOfPool(pool: seq<CandidatePoolEntry>, i: nat, j: nat)
    requires DistinctOwners(pool) && Ascending(pool) && i < |pool| && j < |pool|
    ensures 1 <= GetAddressRank(pool, pool[i].owner) <= |pool|
    ensures i != j ==> GetAddressRank(pool, pool[i].owner) != GetAddressRank(pool, pool[j].owner)
    ensures i == |pool| - 1 ==> GetAddressRank(pool, pool[i].owner) == 1
    ensures pool[i].amount > pool[j].amount ==>
      GetAddressRank(pool, pool[i].owner) < GetAddressRank(pool, pool[j].owner)
  {
    RankOfEntry(pool, i);
    RankOfEntry(pool, j);
  }

  /** The pool read as [100, 300, 200]. */
  const EXAMPLE_READ: seq<CandidatePoolEntry> :=
    [CandidatePoolEntry("0xaa", 100), CandidatePoolEntry("0xBB", 300), CandidatePoolEntry("0xcc", 200)]

  /** The example read sorted by ascending stake. */
  const EXAMPLE_SORTED: seq<CandidatePoolEntry> := [EXAMPLE_READ[0], EXAMPLE_READ[2], EXAMPLE_READ[1]]

  /** Sorting the example read can only give [100, 200, 300]. */
  lemma ExampleSorted(pool: seq<CandidatePoolEntry>, perm: seq<nat>, inv: seq<nat>)
    requires Ascending(pool) && Rearranges(pool, EXAMPLE_READ, perm, inv)
    ensures pool == EXAMPLE_SORTED
  {
    assert perm[0] < 3 && perm[1] < 3 && perm[2] < 3;
    assert perm[0] != perm[1] && perm[1] != perm[2] && perm[0] != perm[2] by {
      assert inv[perm[0]] == 0 && inv[perm[1]] == 1 && inv[perm[2]] == 2;
    }
  }

  /** Ranks in the sorted example, the largest stake queried in lower case. */
  lemma ExampleRanks()
    ensures GetAddressRank(EXAMPLE_SORTED, "0xaa") == 3
    ensures GetAddressRank(EXAMPLE_SORTED, "0xbb") == 1
    ensures GetAddressRank(EXAMPLE_SORTED, "0xcc") == 2
  {
    var pool := EXAMPLE_SORTED;
    assert DistinctOwners(pool) by {
      assert pool[0].owner[3] == 'a' && pool[1].owner[3] == 'c' && pool[2].owner[3] == 'B';
    }
    RankOfEntry(pool, 0);
    RankOfEntry(pool, 1);
    RankOfEntry(pool, 2);
    assert EqualFold("0xbb", pool[2].owner);
    RankFolds(pool, "0xbb", pool[2].owner);
  }

  /** A pool read as [100, 300, 200] is sorted to [100, 200, 300]; the owner
      of 300 ranks 1 whatever the case of the query, and the owner of 100
      ranks 3. */
  method RankExample() returns (ranks: seq<nat>)
    ensures ranks == [3, 1, 2]
  {
    var r, perm, inv := FetchSortedCandidatePool(Ok(EXAMPLE_READ));
    ExampleSorted(r.value, perm, inv);
    ExampleRanks();
    var pool := r.value;
    ranks := [GetAddressRank(pool, "0xaa"), GetAddressRank(pool, "0xbb"), GetAddressRank(pool, "0xcc")];
  }

  // ---------------------------------------------------------------------
  // FetchCollatorPool: the fetch list

  /** An owner is fetched when no address is configured or it equals the
      configured address ignoring case. */
  predicate Wanted(filter: string, owner: string)
  {
    |filter| == 0 || EqualFold(filter, owner)
  }

  /** The owners of `pool` that are fetched, in pool order. */
  function FetchListOf(pool: seq<CandidatePoolEntry>, filter: string): (addresses: seq<string>)
    ensures |addresses| <= |pool|
  {
    if pool == [] then []
    else
      var rest := FetchListOf(pool[..|pool| - 1], filter);
      var owner := pool[|pool| - 1].owner;
      if Wanted(filter, owner) then rest + [owner] else rest
  }

  /** The loop of collators.go that builds the fetch list. */
  method FetchList(pool: seq<CandidatePoolEntry>, filter: string) returns (addresses: seq<string>)
    ensures addresses == FetchListOf(pool, filter)
  {
    addresses := [];
    for i := 0 to |pool|
      invariant addresses == FetchListOf(pool[..i], filter)
    {
      assert pool[..i + 1][..i] == pool[..i];
      if |filter| == 0 || EqualFold(filter, pool[i].owner) {
        addresses := addresses + [pool[i].owner];
      }
    }
    assert pool[..|pool|] == pool;
  }

  /** With no address configured, every owner is fetched, in pool order. */
  lemma {:induction false} FetchListUnfiltered(pool: seq<CandidatePoolEntry>)
    ensures |FetchListOf(pool, "")| == |pool|
    ensures forall k :: 0 <= k < |pool| ==> FetchListOf(pool, "")[k] == pool[k].owner
  {
    if pool != [] {
      FetchListUnfiltered(pool[..|pool| - 1]);
    }
  }

  /** An address is fetched exactly when it is the owner of some entry and
      is wanted. */
  lemma {:induction false} FetchListMembers(pool: seq<CandidatePoolEntry>, filter: string, a: string)
    ensures a in FetchListOf(pool, filter) <==>
      Wanted(filter, a) && exists k :: 0 <= k < |pool| && pool[k].owner == a
  {
    if pool != [] {
      var init := pool[..|pool| - 1];
      FetchListMembers(init, filter, a);
      if exists k :: 0 <= k < |init| && init[k].owner == a {
        var k :| 0 <= k < |init| && init[k].owner == a;
        assert pool[k].owner == a;
      }
      if exists k :: 0 <= k < |pool| && pool[k].owner == a {
        var k :| 0 <= k < |pool| && pool[k].owner == a;
        if k < |init| {
          assert init[k].owner == a;
        }
      }
    }
  }

  // ---------------------------------------------------------------------
  // FetchCollatorPool: the order of the collected collators

  /** Go's "less" for the collected collators: a nil counted stake is less
      than anything, a present one is never less than a nil one, and two
      present ones compare by larger stake first. */
  function CountedLess(x: CollatorInfo, y: CollatorInfo): (less: bool)
    ensures less <==> x.counted.balance.None? ||
                      (y.counted.balance.Some? && x.counted.balance.value > y.counted.balance.value)
  {
    if x.counted.balance.None? then true
    else if y.counted.balance.None? then false
    else Cmp(x.counted.balance.value, y.counted.balance.value) == 1
  }

  /** The order that sort establishes: nil stakes first, then present
      stakes by non-increasing value. */
  function CountedOrder(x: CollatorInfo, y: CollatorInfo): (before: bool)
    ensures before <==>
              CountedLess(x, y) ||
              (x.counted.balance.Some? && y.counted.balance.Some? &&
               Cmp(x.counted.balance.value, y.counted.balance.value) == 0)
  {
    x.counted.balance.None? || (y.counted.balance.Some? && x.counted.balance.value >= y.counted.balance.value)
  }

  lemma CountedOrderIsPreorder()
    ensures TotalPreorder(CountedOrder)
  {
  }

  /** Except on two nil stakes, Go's "less" is exactly the strict part of
      the order; on two nil stakes it holds both ways, so it is not a strict
      weak order there. */
  lemma CountedLessIsStrictPart(x: CollatorInfo, y: CollatorInfo)
    ensures !(x.counted.balance.None? && y.counted.balance.None?) ==>
      (CountedLess(x, y) <==> CountedOrder(x, y) && !CountedOrder(y, x))
    ensures x.counted.balance.None? && y.counted.balance.None? ==> CountedLess(x, y) && CountedLess(y, x)
  {
  }

  // ---------------------------------------------------------------------
  // Lookups on a collator or a pool

  /** `DisplayName`: the identity's display name when set, otherwise the
      first six and last four characters of the address around "...". The Go
      code slices the address before looking at the display name, so the
      address must have at least six characters either way. */
  function DisplayName(ci: CollatorInfo): (name: string)
    requires |ci.address| >= 6
    ensures ci.display != "" ==> name == ci.display
    ensures ci.display == "" ==> |name| == 13 && name[..6] == ci.address[..6] && name[6..9] == "..."
    ensures ci.display == "" ==> name[9..] == ci.address[|ci.address| - 4..]
  {
    var short := ci.address[..6] + "..." + ci.address[|ci.address| - 4..];
    if ci.display != "" then ci.display else short
  }

  /** The first index at or after `from` whose address equals `address`
      ignoring case. */
  function FirstAddressMatch(cs: seq<CollatorInfo>, address: string, from: nat): (m: Option<nat>)
    requires from <= |cs|
    decreases |cs| - from
    ensures m.Some? ==> from <= m.value < |cs| && EqualFold(address, cs[m.value].address)
    ensures m.Some? ==> forall k :: from <= k < m.value ==> !EqualFold(address, cs[k].address)
    ensures m.None? ==> forall k :: from <= k < |cs| ==> !EqualFold(address, cs[k].address)
  {
    if from == |cs| then None
    else if EqualFold(address, cs[from].address) then Some(from)
    else FirstAddressMatch(cs, address, from + 1)
  }

  /** `CollatorPool.CollatorInfoByAddress`: the first collator whose address
      equals `address` ignoring case, or the zero value and false. */
  function CollatorInfoByAddress(pool: CollatorPool, address: string): (r: (CollatorInfo, bool))
    ensures r.1 <==> exists i :: 0 <= i < |pool.collators| && EqualFold(address, pool.collators[i].address)
    ensures !r.1 ==> r.0 == ZERO_COLLATOR_INFO
    ensures r.1 ==> exists i :: 0 <= i < |pool.collators| && r.0 == pool.collators[i] &&
                               EqualFold(address, pool.collators[i].address) &&
                               forall k :: 0 <= k < i ==> !EqualFold(address, pool.collators[k].address)
  {
    match FirstAddressMatch(pool.collators, address, 0)
    case Some(i) => (pool.collators[i], true)
    case None => (ZERO_COLLATOR_INFO, false)
  }

  // ---------------------------------------------------------------------
  // RevokeAt

  /** The state of the `RevokeAt` loop as written after meeting the keys of
      `order` in turn: whether it has returned, and the value it returns or
      holds in `lastV`. `lastK` stays 0, so every positive key overwrites
      `lastV`. */
  function RevokeScan(revokes: map<nat, RevokeRound>, order: seq<nat>, round: nat): (s: (bool, RevokeRound))
    requires forall k :: 0 <= k < |order| ==> order[k] in revokes
    ensures s.0 <==> round in order
  {
    if order == [] then (false, ZERO_REVOKE_ROUND)
    else
      var prev := RevokeScan(revokes, order[..|order| - 1], round);
      var k := order[|order| - 1];
      assert round in order <==> round in order[..|order| - 1] || round == k by {
        assert order == order[..|order| - 1] + [k];
      }
      if prev.0 then prev
      else if k == round then (true, revokes[k])
      else (false, if k > 0 then revokes[k] else prev.1)
  }

  /** `order` lists distinct keys of `keys`. */
  ghost predicate DistinctKeys(order: seq<nat>, keys: set<nat>)
  {
    (forall k :: 0 <= k < |order| ==> order[k] in keys) &&
    (forall i, j :: 0 <= i < j < |order| ==> order[i] != order[j])
  }

  /** `CollatorInfo.RevokeAt` as written: ranges over the map in Go's
      unspecified order (the ghost result is the order the keys were met
      in), returning the value at `round` if met, otherwise `lastV`. */
  method RevokeAt(ci: CollatorInfo, round: nat) returns (r: RevokeRound, ghost order: seq<nat>)
    ensures DistinctKeys(order, ci.revokes.Keys)
    ensures r == RevokeScan(ci.revokes, order, round).1
    ensures round in ci.revokes ==> r == ci.revokes[round]
    ensures round !in ci.revokes ==> forall k :: k in ci.revokes ==> k in order
  {
    var lastV := ZERO_REVOKE_ROUND;
    var lastK := 0;
    var remaining := ci.revokes.Keys;
    order := [];
    while remaining != {}
      invariant remaining <= ci.revokes.Keys
      invariant DistinctKeys(order, ci.revokes.Keys)
      invariant forall k :: k in ci.revokes ==> (k in order <==> k !in remaining)
      invariant round !in order
      invariant RevokeScan(ci.revokes, order, round) == (false, lastV)
      decreases |remaining|
    {
      var k :| k in remaining;
      var v := ci.revokes[k];
      assert (order + [k])[..|order|] == order;
      order := order + [k];
      remaining := remaining - {k};
      if k > lastK {
        lastV := v;
      }
      if k == round {
        return v, order;
      }
    }
    r := lastV;
  }

  /** The largest element of a non-empty set. */
  ghost function MaxKey(s: set<nat>): (m: nat)
    requires s != {}
    ensures m in s && forall x :: x in s ==> x <= m
  {
    var x :| x in s;
    var rest := s - {x};
    assert forall y :: y in s ==> y in rest || y == x;
    if rest == {} then x
    else
      var m := MaxKey(rest);
      if x > m then x else m
  }

  /** What `RevokeAt` evidently means to return: the entry of `round`, or,
      for a round beyond the projection ("too late"), the entry of the
      latest projected round; the zero value when no positive round is
      projected. */
  ghost function LatestRevoke(revokes: map<nat, RevokeRound>, round: nat): (r: RevokeRound)
    ensures round in revokes ==> r == revokes[round]
    ensures round !in revokes && (exists k :: k in revokes && k > 0) ==>
      exists k :: k in revokes && r == revokes[k] && forall j :: j in revokes ==> j <= k
    ensures r in revokes.Values || r == ZERO_REVOKE_ROUND
  {
    if round in revokes then revokes[round]
    else if revokes.Keys != {} && MaxKey(revokes.Keys) > 0 then revokes[MaxKey(revokes.Keys)]
    else ZERO_REVOKE_ROUND
  }

  /** `RevokeAt` with `lastK` kept up to date: the result no longer depends
      on the order in which the map is ranged over. */
  method RevokeAtLatest(ci: CollatorInfo, round: nat) returns (r: RevokeRound)
    ensures r == LatestRevoke(ci.revokes, round)
  {
    var lastV := ZERO_REVOKE_ROUND;
    var lastK := 0;
    var remaining := ci.revokes.Keys;
    ghost var seen: set<nat> := {};
    while remaining != {}
      invariant remaining <= ci.revokes.Keys && seen == ci.revokes.Keys - remaining
      invariant round !in seen
      invariant forall x :: x in seen ==> x <= lastK
      invariant lastK == 0 || lastK in seen
      invariant lastK > 0 ==> lastV == ci.revokes[lastK]
      invariant lastK == 0 ==> lastV == ZERO_REVOKE_ROUND
      decreases |remaining|
    {
      var k :| k in remaining;
      var v := ci.revokes[k];
      remaining := remaining - {k};
      seen := seen + {k};
      if k > lastK {
        lastV := v;
        lastK := k;
      }
      if k == round {
        return v;
      }
    }
    assert seen == ci.revokes.Keys;
    if ci.revokes.Keys != {} {
      var m := MaxKey(ci.revokes.Keys);
      assert m <= lastK;
      assert lastK > 0 ==> lastK == m;
    }
    r := lastV;
  }

  /** The loop as written returns a stale projection past the window: with
      rounds 5 and 6 projected and the map ranged over as 6 then 5, asking
      for round 10 gives round 5's entry, not the latest one. */
  lemma RevokeAtStaleEntry(a: RevokeRound, b: RevokeRound)
    requires a != b
    ensures RevokeScan(map[5 := a, 6 := b], [6, 5], 10).1 == a
    ensures RevokeScan(map[5 := a, 6 := b], [5, 6], 10).1 == b
    ensures LatestRevoke(map[5 := a, 6 := b], 10) == b
  {
    var m := map[5 := a, 6 := b];
    assert [6, 5][..1] == [6] && [6][..0] == [];
    assert [5, 6][..1] == [5] && [5][..0] == [];
    assert m.Keys == {5, 6};
    var k := MaxKey(m.Keys);
    assert k == 6;
  }
}
