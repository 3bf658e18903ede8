/** collators.go, `FetchCollatorPool`: reads the candidate pool and the
    selected candidates at the snapshot block, fetches the wanted collators,
    orders them by counted stake and projects their revokes. The per-collator
    fetch (`FetchCollatorInfo`) is I/O and is a parameter here. */
module PoolFetch {
  import opened Wrappers
  import opened GoInts
  import opened GoStrings
  import opened Sorting
  import opened Collators
  import opened Revokes
  import Async

  /** The storage reads `FetchCollatorPool` depends on: the decoded
      candidate pool and selected candidates at a block, and
      `FetchCollatorInfo(address, selected, rank)`. */
  datatype CollatorReads = CollatorReads(
    candidatePool: BlockHash -> Outcome<seq<CandidatePoolEntry>>,
    selectedCandidates: BlockHash -> Outcome<seq<string>>,
    collatorInfo: (string, bool, nat) -> Async.Result<CollatorInfo>)

  /** How `FetchCollatorPool` ends: a pool and a nil error, an error, a
      run-time panic, or a loop that never ends. */
  datatype PoolOutcome = Fetched(pool: CollatorPool) | Failed(error: Error) | Panicked | Diverged

  /** The result of the reading phase. */
  datatype Gathered =
    | ReadFailed(error: Error)
    | CandidateFailed
    | Collected(selected: seq<string>, infos: seq<CollatorInfo>)

  /** `s` lists the elements of `t` in some order. */
  ghost predicate Permutes<T>(s: seq<T>, t: seq<T>)
  {
    exists perm: seq<nat>, inv: seq<nat> :: Rearranges(s, t, perm, inv)
  }

  /** The fetch of one address: with its exact-case membership in the
      selected list and its rank in the sorted pool. */
  function InfoFor(storage: CollatorReads, pool: seq<CandidatePoolEntry>, selected: seq<string>, address: string)
    : Async.Result<CollatorInfo>
  {
    storage.collatorInfo(address, address in selected, GetAddressRank(pool, address))
  }

  /** Some fetch of the list fails. */
  predicate AnyFailed(storage: CollatorReads, pool: seq<CandidatePoolEntry>, selected: seq<string>, addresses: seq<string>)
  {
    exists k :: 0 <= k < |addresses| && InfoFor(storage, pool, selected, addresses[k]).IsErr()
  }

  /** The reading phase: the sorted candidate pool, the selected candidates,
      the fetch list and one fetch per address, in fetch-list order. A read
      error is returned; a failed fetch ends the phase. */
  method Gather(storage: CollatorReads, hash: BlockHash, cfg: PoolConfig)
    returns (g: Gathered, ghost pool: seq<CandidatePoolEntry>)
    ensures storage.candidatePool(hash).Err? ==> g == ReadFailed(storage.candidatePool(hash).error)
    ensures storage.candidatePool(hash).Ok? && storage.selectedCandidates(hash).Err? ==>
      g == ReadFailed(storage.selectedCandidates(hash).error)
    ensures storage.candidatePool(hash).Ok? && storage.selectedCandidates(hash).Ok? ==>
      Ascending(pool) && Permutes(pool, storage.candidatePool(hash).value)
    ensures storage.candidatePool(hash).Ok? && storage.selectedCandidates(hash).Ok? ==>
      var selected := storage.selectedCandidates(hash).value;
      var addresses := FetchListOf(pool, cfg.address);
      (g.CandidateFailed? <==> AnyFailed(storage, pool, selected, addresses)) &&
      (!g.CandidateFailed? ==>
        g.Collected? && g.selected == selected && |g.infos| == |addresses| &&
        forall k :: 0 <= k < |addresses| ==> g.infos[k] == InfoFor(storage, pool, selected, addresses[k]).value)
  {
    pool := [];
    var sortedRead, perm, inv := FetchSortedCandidatePool(storage.candidatePool(hash));
    if sortedRead.Err? {
      return ReadFailed(sortedRead.error), pool;
    }
    var candidates := sortedRead.value;
    pool := candidates;
    var selected := storage.selectedCandidates(hash);
    if selected.Err? {
      return ReadFailed(selected.error), pool;
    }
    var addresses := FetchList(candidates, cfg.address);
    var infos: seq<CollatorInfo> := [];
    for k := 0 to |addresses|
      invariant |infos| == k
      invariant forall m :: 0 <= m < k ==>
        !InfoFor(storage, pool, selected.value, addresses[m]).IsErr() &&
        infos[m] == InfoFor(storage, pool, selected.value, addresses[m]).value
    {
      var address := addresses[k];
      var rank := GetAddressRank(candidates, address);
      var isSelected := address in selected.value;
      var r := storage.collatorInfo(address, isSelected, rank);
      if r.IsErr() {
        return CandidateFailed, pool;
      }
      infos := infos + [r.value];
    }
    g := Collected(selected.value, infos);
  }

  /** What the ordering and projection phase leaves, for collected `infos`
      (at least one) and the window `first .. last`: a panic when a stake the
      projection reads is nil, a loop without end when `last` is the largest
      `uint32`, and otherwise a pool of the collators ordered nil first then
      by non-increasing counted stake, carrying the projection. A window that
      wrapped around (`last < first`) projects nothing. */
  ghost predicate Finished(r: PoolOutcome, sorted: seq<CollatorInfo>, infos: seq<CollatorInfo>,
                           selectedSize: nat, first: nat, last: nat)
  {
    if first <= last && exists k :: 0 <= k < |infos| && !Projectable(infos[k]) then r == Panicked
    else if first <= last && last == MAX_U32 then r == Diverged
    else
      |sorted| == |infos| > 0 && SortedBy(sorted, CountedOrder) && Permutes(sorted, infos) &&
      r.Fetched? && r.pool.selectedSize == selectedSize && r.pool.roundNumber == first &&
      if first > last then r.pool.collators == sorted
      else
        (forall i :: 0 <= i < |sorted| ==> Projectable(sorted[i])) &&
        Projection(sorted, r.pool.collators, first, last, last + 1, sorted[0].counted.info)
  }

  /** Sorting keeps the collators, so every one of them has known stakes
      after the sort exactly when every one had before. */
  lemma SortKeepsCollators(sorted: seq<CollatorInfo>, infos: seq<CollatorInfo>, perm: seq<nat>, inv: seq<nat>)
    requires Rearranges(sorted, infos, perm, inv)
    ensures Permutes(sorted, infos)
    ensures (forall j :: 0 <= j < |sorted| ==> Projectable(sorted[j])) <==>
            (forall j :: 0 <= j < |infos| ==> Projectable(infos[j]))
  {
    if forall j :: 0 <= j < |sorted| ==> Projectable(sorted[j]) {
      forall j | 0 <= j < |infos| ensures Projectable(infos[j]) {
        assert infos[j] == sorted[inv[j]];
      }
    }
  }

  /** A sorted pool whose window is projected has finished normally. */
  lemma FinishedProjected(sorted: seq<CollatorInfo>, infos: seq<CollatorInfo>, after: seq<CollatorInfo>,
                          selectedSize: nat, first: nat, last: nat)
    requires |sorted| == |infos| > 0 && SortedBy(sorted, CountedOrder) && Permutes(sorted, infos)
    requires first <= last < MAX_U32
    requires forall j :: 0 <= j < |sorted| ==> Projectable(sorted[j])
    requires forall j :: 0 <= j < |infos| ==> Projectable(infos[j])
    requires Projection(sorted, after, first, last, last + 1, sorted[0].counted.info)
    ensures Finished(Fetched(CollatorPool(selectedSize, first, after)), sorted, infos, selectedSize, first, last)
  {
  }

  /** A sorted pool with an empty window has finished normally. */
  lemma FinishedUnprojected(sorted: seq<CollatorInfo>, infos: seq<CollatorInfo>,
                            selectedSize: nat, first: nat, last: nat)
    requires |sorted| == |infos| > 0 && SortedBy(sorted, CountedOrder) && Permutes(sorted, infos)
    requires first > last
    ensures Finished(Fetched(CollatorPool(selectedSize, first, sorted)), sorted, infos, selectedSize, first, last)
  {
  }

  /** A nil stake in a non-empty window panics. */
  lemma FinishedPanicked(sorted: seq<CollatorInfo>, infos: seq<CollatorInfo>,
                         selectedSize: nat, first: nat, last: nat)
    requires first <= last && !(forall j :: 0 <= j < |infos| ==> Projectable(infos[j]))
    ensures Finished(Panicked, sorted, infos, selectedSize, first, last)
  {
  }

  /** Known stakes and a window ending at the largest `uint32` never end. */
  lemma FinishedDiverged(sorted: seq<CollatorInfo>, infos: seq<CollatorInfo>,
                         selectedSize: nat, first: nat, last: nat)
    requires first <= last == MAX_U32 && forall j :: 0 <= j < |infos| ==> Projectable(infos[j])
    ensures Finished(Diverged, sorted, infos, selectedSize, first, last)
  {
  }

  /** The collected collators copied into a fresh array and sorted nil
      first, then by non-increasing counted stake. */
  method SortCollators(infos: seq<CollatorInfo>) returns (cs: array<CollatorInfo>)
    ensures fresh(cs) && cs.Length == |infos|
    ensures SortedBy(cs[..], CountedOrder) && Permutes(cs[..], infos)
    ensures (forall j :: 0 <= j < cs.Length ==> Projectable(cs[j])) <==>
            (forall j :: 0 <= j < |infos| ==> Projectable(infos[j]))
  {
    cs := new CollatorInfo[|infos|](k requires 0 <= k < |infos| => infos[k]);
    assert cs[..] == infos;
    CountedOrderIsPreorder();
    ghost var perm, inv := SortBy(cs, CountedOrder);
    SortKeepsCollators(cs[..], infos, perm, inv);
  }

  /** The ordering and projection phase, on the collected collators. */
  method Finish(infos: seq<CollatorInfo>, selectedSize: nat, first: nat, last: nat)
    returns (r: PoolOutcome, ghost sorted: seq<CollatorInfo>)
    requires |infos| > 0 && IsU32(last)
    ensures Finished(r, sorted, infos, selectedSize, first, last)
  {
    var cs := SortCollators(infos);
    sorted := cs[..];
    if first > last {
      r := Fetched(CollatorPool(selectedSize, first, cs[..]));
      FinishedUnprojected(sorted, infos, selectedSize, first, last);
      return;
    }
    if exists k :: 0 <= k < cs.Length && !Projectable(cs[k]) {
      r := Panicked;
      FinishedPanicked(sorted, infos, selectedSize, first, last);
      return;
    }
    if last == MAX_U32 {
      r := Diverged;
      FinishedDiverged(sorted, infos, selectedSize, first, last);
      return;
    }
    ComputeRevokes(cs, first, last);
    r := Fetched(CollatorPool(selectedSize, first, cs[..]));
    FinishedProjected(sorted, infos, cs[..], selectedSize, first, last);
  }

  /** How `FetchCollatorPool` as written ends, given the sorted candidate
      pool `pool` and the collected collators in their sorted order
      `sorted`: a read error is returned; a failed collator fetch gives the
      empty pool and no error; an empty fetch list panics; otherwise the
      collected collators are ordered and projected as `Finished` says. */
  ghost predicate PoolFetched(storage: CollatorReads, hash: BlockHash, round: nat, revokeDelay: nat, cfg: PoolConfig,
                              r: PoolOutcome, pool: seq<CandidatePoolEntry>, sorted: seq<CollatorInfo>)
  {
    (storage.candidatePool(hash).Err? ==> r == Failed(storage.candidatePool(hash).error)) &&
    (storage.candidatePool(hash).Ok? && storage.selectedCandidates(hash).Err? ==>
      r == Failed(storage.selectedCandidates(hash).error)) &&
    (storage.candidatePool(hash).Ok? && storage.selectedCandidates(hash).Ok? ==>
      var selected := storage.selectedCandidates(hash).value;
      var addresses := FetchListOf(pool, cfg.address);
      Ascending(pool) && Permutes(pool, storage.candidatePool(hash).value) &&
      (AnyFailed(storage, pool, selected, addresses) ==> r == Fetched(ZERO_POOL)) &&
      (!AnyFailed(storage, pool, selected, addresses) && addresses == [] ==> r == Panicked) &&
      (!AnyFailed(storage, pool, selected, addresses) && addresses != [] ==>
        Finished(r, sorted, seq(|addresses|, k requires 0 <= k < |addresses| =>
                                  InfoFor(storage, pool, selected, addresses[k]).value),
                 U32(|selected|), round, U32(round + revokeDelay))))
  }

  /** `FetchCollatorPool` as written, for a snapshot round `round` with
      revoke delay `revokeDelay`: the window is `round .. round + delay`
      in `uint32` arithmetic. When no collator is collected (the configured
      address matches no candidate) `computeRevokes` reads `Collators[0]`
      of an empty list and panics. */
  method FetchCollatorPool(storage: CollatorReads, hash: BlockHash, round: nat, revokeDelay: nat, cfg: PoolConfig)
    returns (r: PoolOutcome, ghost pool: seq<CandidatePoolEntry>, ghost sorted: seq<CollatorInfo>)
    requires IsU32(round) && IsU32(revokeDelay)
    ensures PoolFetched(storage, hash, round, revokeDelay, cfg, r, pool, sorted)
  {
    var g;
    g, pool := Gather(storage, hash, cfg);
    sorted := [];
    match g
    case ReadFailed(e) =>
      r := Failed(e);
    case CandidateFailed =>
      r := Fetched(ZERO_POOL);
    case Collected(selected, infos) =>
      if infos == [] {
        r := Panicked;
      } else {
        ghost var addresses := FetchListOf(pool, cfg.address);
        assert infos == seq(|addresses|, k requires 0 <= k < |addresses| =>
                              InfoFor(storage, pool, selected, addresses[k]).value);
        r, sorted := Finish(infos, U32(|selected|), round, U32(round + revokeDelay));
      }
  }

  /** `FetchCollatorPool` with `computeRevokes` skipped when nothing was
      collected: the empty pool is returned instead of a panic. */
  method FetchCollatorPoolGuarded(storage: CollatorReads, hash: BlockHash, round: nat, revokeDelay: nat, cfg: PoolConfig)
    returns (r: PoolOutcome, ghost pool: seq<CandidatePoolEntry>, ghost sorted: seq<CollatorInfo>)
    requires IsU32(round) && IsU32(revokeDelay)
    ensures storage.candidatePool(hash).Err? ==> r == Failed(storage.candidatePool(hash).error)
    ensures storage.candidatePool(hash).Ok? && storage.selectedCandidates(hash).Err? ==>
      r == Failed(storage.selectedCandidates(hash).error)
    ensures storage.candidatePool(hash).Ok? && storage.selectedCandidates(hash).Ok? ==>
      var selected := storage.selectedCandidates(hash).value;
      var addresses := FetchListOf(pool, cfg.address);
      Ascending(pool) && Permutes(pool, storage.candidatePool(hash).value) &&
      (AnyFailed(storage, pool, selected, addresses) ==> r == Fetched(ZERO_POOL)) &&
      (!AnyFailed(storage, pool, selected, addresses) && addresses == [] ==>
        r == Fetched(CollatorPool(U32(|selected|), round, []))) &&
      (!AnyFailed(storage, pool, selected, addresses) && addresses != [] ==>
        Finished(r, sorted, seq(|addresses|, k requires 0 <= k < |addresses| =>
                                  InfoFor(storage, pool, selected, addresses[k]).value),
                 U32(|selected|), round, U32(round + revokeDelay)))
  {
    var g;
    g, pool := Gather(storage, hash, cfg);
    sorted := [];
    match g
    case ReadFailed(e) =>
      r := Failed(e);
    case CandidateFailed =>
      r := Fetched(ZERO_POOL);
    case Collected(selected, infos) =>
      if infos == [] {
        r := Fetched(CollatorPool(U32(|selected|), round, []));
      } else {
        ghost var addresses := FetchListOf(pool, cfg.address);
        assert infos == seq(|addresses|, k requires 0 <= k < |addresses| =>
                              InfoFor(storage, pool, selected, addresses[k]).value);
        r, sorted := Finish(infos, U32(|selected|), round, U32(round + revokeDelay));
      }
  }

  /** A configured address that matches no candidate leaves an empty fetch
      list. */
  lemma UnmatchedAddressFetchesNothing(pool: seq<CandidatePoolEntry>, address: string)
    requires address != [] && forall k :: 0 <= k < |pool| ==> !EqualFold(address, pool[k].owner)
    ensures FetchListOf(pool, address) == []
  {
    var l := FetchListOf(pool, address);
    if l != [] {
      FetchListMembers(pool, address, l[0]);
    }
  }

  /** Reads for one candidate "0xaa" that is not selected, whose fetch
      succeeds. */
  function OneCandidate(): CollatorReads
  {
    CollatorReads(
      h => Ok([CandidatePoolEntry("0xaa", 1)]),
      h => Ok([]),
      (a, s, k) => Async.SuccessResult(ZERO_COLLATOR_INFO))
  }

  /** With `--address 0xbb` and only "0xaa" in the pool, the code as written
      panics. */
  method UnmatchedAddressPanics() returns (r: PoolOutcome)
    ensures r == Panicked
  {
    var storage := OneCandidate();
    ghost var pool, sorted;
    r, pool, sorted := FetchCollatorPool(storage, "0x01", 10, 2, PoolConfig("0xbb", 8, true));
    UnmatchedPool(pool);
  }

  /** The same call on the guarded version returns an empty pool. */
  method UnmatchedAddressGuarded() returns (r: PoolOutcome)
    ensures r == Fetched(CollatorPool(0, 10, []))
  {
    var storage := OneCandidate();
    ghost var pool, sorted;
    r, pool, sorted := FetchCollatorPoolGuarded(storage, "0x01", 10, 2, PoolConfig("0xbb", 8, true));
    UnmatchedPool(pool);
  }

  /** A rearrangement of a one-element list is that list. */
  lemma OnlyEntry(pool: seq<CandidatePoolEntry>, e: CandidatePoolEntry)
    requires Permutes(pool, [e])
    ensures pool == [e]
  {
    var perm, inv :| Rearranges(pool, [e], perm, inv);
    assert pool[0] == [e][perm[0]];
  }

  /** "0xbb" and "0xaa" differ even ignoring case. */
  lemma OtherAddress()
    ensures !EqualFold("0xbb", "0xaa")
  {
    assert FoldChar("0xbb"[2]) != FoldChar("0xaa"[2]);
  }

  lemma UnmatchedPool(pool: seq<CandidatePoolEntry>)
    requires Permutes(pool, [CandidatePoolEntry("0xaa", 1)])
    ensures FetchListOf(pool, "0xbb") == []
    ensures !AnyFailed(OneCandidate(), pool, [], [])
  {
    OnlyEntry(pool, CandidatePoolEntry("0xaa", 1));
    OtherAddress();
    assert pool[..0] == [] && pool[0].owner == "0xaa";
    assert !Wanted("0xbb", pool[0].owner);
  }
}
