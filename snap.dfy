/** internal/client/snap.go: resolving the block a snapshot is taken at (the
    head, an absolute block, or a block within a past round) and the summary
    recorded for it. Every chain read is a field of `Chain`. */
module Snap {
  import opened Wrappers
  import opened GoInts
  import opened Decimal
  import Tools
  import opened Collators

  /** `SnapBlock` without its floating-point `DurationSecs`. */
  datatype SnapBlock = SnapBlock(number: nat, hash: BlockHash, tsMillis: nat)

  /** `SnapRound`. */
  datatype SnapRound = SnapRound(number: nat, length: nat, start: nat, revokeDelay: nat)

  /** `SnapStaking`: sizes of the selected set and of the candidate pool. */
  datatype SnapStaking = SnapStaking(selected: nat, total: nat)

  /** `Snap`. */
  datatype Snap = Snap(block: SnapBlock, round: SnapRound, staking: SnapStaking)

  /** The staking round record read from storage. */
  datatype RoundInfo = RoundInfo(current: nat, first: nat, length: nat)

  /** The chain reads `fetchSnapBlock` makes: the latest block hash, the
      number of a block, the hash of a block number, the round record and
      the timestamp at a block, the candidate pool and selected candidates at
      a block, and the bond-less delay constant. */
  datatype Chain = Chain(
    latestHash: Outcome<BlockHash>,
    blockNumber: BlockHash -> Outcome<nat>,
    blockHash: nat -> Outcome<BlockHash>,
    roundInfo: BlockHash -> Outcome<RoundInfo>,
    blockTs: BlockHash -> Outcome<nat>,
    candidatePool: BlockHash -> Outcome<seq<CandidatePoolEntry>>,
    selectedCandidates: BlockHash -> Outcome<seq<string>>,
    bondLessDelay: Outcome<nat>)

  /** The block whose timestamp the average block time is measured from: at
      most 10000 blocks back, and never before block 1. */
  function SamplingBlock(n: nat): (s: nat)
    ensures n >= 1 ==> 1 <= s <= n && n - s <= 10000
    ensures n > 10000 ==> s == n - 10000
    ensures 1 <= n <= 10001 ==> s == 1
  {
    if n == 0 then 0 else n - Tools.Min(n - 1, 10000)
  }

  /** The error for an absolute target above the head. */
  function InvalidBlockError(targetBlock: int, head: nat): Error
  {
    "invalid block " + IntText(targetBlock) + " > " + IntText(head)
  }

  /** The block `fetchSnapBlock` probes to find a past round: `rounds` round
      lengths back from `head`, in `uint64` arithmetic. */
  function ProbeBlock(head: nat, length: nat, rounds: nat): nat
  {
    U64(head - length * rounds)
  }

  /** When every round so far had the same length and the head lies in the
      current round, the probe lands in the round `rounds` back, at the same
      offset from its start as the head from the current round's start. */
  lemma ProbeInTargetRound(head: nat, first: nat, length: nat, rounds: nat)
    requires IsU64(head) && first <= head < first + length && length * rounds <= first
    ensures var start := first - length * rounds;
      start <= ProbeBlock(head, length, rounds) < start + length &&
      ProbeBlock(head, length, rounds) - start == head - first
  {
  }

  /** The block `fetchSnapBlock` settles on, as a number and a hash, or the
      first failed read or the "invalid block" error on the way there. */
  ghost function SnapTarget(chain: Chain, targetBlock: int, targetRound: nat): Outcome<(nat, BlockHash)>
  {
    if chain.latestHash.Err? then Err(chain.latestHash.error)
    else
      var head := chain.latestHash.value;
      if chain.blockNumber(head).Err? then Err(chain.blockNumber(head).error)
      else
        var number := chain.blockNumber(head).value;
        if targetRound == 0 && targetBlock == 0 then Ok((number, head))
        else if targetRound == 0 then
          if U64(targetBlock) > number then Err(InvalidBlockError(targetBlock, number))
          else if chain.blockHash(U64(targetBlock)).Err? then Err(chain.blockHash(U64(targetBlock)).error)
          else Ok((U64(targetBlock), chain.blockHash(U64(targetBlock)).value))
        else if chain.roundInfo(head).Err? then Err(chain.roundInfo(head).error)
        else
          var current := chain.roundInfo(head).value;
          if targetRound > U32(current.current) then Ok((number, head))
          else
            var probe := ProbeBlock(number, current.length, U32(current.current) - targetRound);
            if chain.blockHash(probe).Err? then Err(chain.blockHash(probe).error)
            else if chain.roundInfo(chain.blockHash(probe).value).Err? then
              Err(chain.roundInfo(chain.blockHash(probe).value).error)
            else
              var start := chain.roundInfo(chain.blockHash(probe).value).value.first;
              var target := if targetBlock == 0 then start else U64(start + targetBlock);
              if chain.blockHash(target).Err? then Err(chain.blockHash(target).error)
              else Ok((target, chain.blockHash(target).value))
  }

  /** Every read made at the settled block succeeds: its round record and
      timestamp, the hash and timestamp of the sampling block, the candidate
      pool, the selected candidates and the bond-less delay. */
  ghost predicate SnapReadsOk(chain: Chain, number: nat, hash: BlockHash)
  {
    chain.roundInfo(hash).Ok? && chain.blockTs(hash).Ok? &&
    chain.blockHash(SamplingBlock(number)).Ok? && chain.blockTs(chain.blockHash(SamplingBlock(number)).value).Ok? &&
    chain.candidatePool(hash).Ok? && chain.selectedCandidates(hash).Ok? && chain.bondLessDelay.Ok?
  }

  /** A round after the current one leaves the target at the head block,
      with no error, once the head's number and round record are read. */
  lemma LaterRoundStaysAtHead(chain: Chain, targetBlock: int, targetRound: nat)
    requires chain.latestHash.Ok? && chain.blockNumber(chain.latestHash.value).Ok?
    requires chain.roundInfo(chain.latestHash.value).Ok?
    requires targetRound > U32(chain.roundInfo(chain.latestHash.value).value.current)
    ensures SnapTarget(chain, targetBlock, targetRound) ==
            Ok((chain.blockNumber(chain.latestHash.value).value, chain.latestHash.value))
  {
  }

  /** `fetchSnapBlock(targetBlock, targetRound)`. With neither target the
      head block is used. With only a block, that block, unless it lies
      above the head. With a round not after the current one, the block is
      that round's first block (found through the probe block) plus the
      block target; a round after the current one silently stays at the
      head. Any failed read is returned as the error. */
  method FetchSnapBlock(chain: Chain, targetBlock: int, targetRound: nat) returns (r: Outcome<Snap>)
    requires IsU32(targetRound)
    ensures chain.latestHash.Err? ==> r == Err(chain.latestHash.error)
    ensures SnapTarget(chain, targetBlock, targetRound).Err? ==>
      r == Err(SnapTarget(chain, targetBlock, targetRound).error)
    ensures r.Ok? <==>
      SnapTarget(chain, targetBlock, targetRound).Ok? &&
      SnapReadsOk(chain, SnapTarget(chain, targetBlock, targetRound).value.0,
                  SnapTarget(chain, targetBlock, targetRound).value.1)
    ensures r.Ok? ==>
      (r.value.block.number, r.value.block.hash) == SnapTarget(chain, targetBlock, targetRound).value
    ensures r.Ok? ==> chain.latestHash.Ok? && chain.blockNumber(chain.latestHash.value).Ok?
    ensures r.Ok? && targetBlock == 0 && targetRound == 0 ==>
      r.value.block.hash == chain.latestHash.value &&
      r.value.block.number == chain.blockNumber(chain.latestHash.value).value
    ensures (targetRound == 0 && targetBlock != 0 && chain.latestHash.Ok? &&
             chain.blockNumber(chain.latestHash.value).Ok? &&
             U64(targetBlock) > chain.blockNumber(chain.latestHash.value).value) ==>
      r == Err(InvalidBlockError(targetBlock, chain.blockNumber(chain.latestHash.value).value))
    ensures r.Ok? && targetRound == 0 && targetBlock != 0 ==>
      r.value.block.number == U64(targetBlock) <= chain.blockNumber(chain.latestHash.value).value &&
      chain.blockHash(r.value.block.number) == Ok(r.value.block.hash)
    ensures r.Ok? && targetRound != 0 ==>
      var head := chain.latestHash.value;
      chain.roundInfo(head).Ok? &&
      var current := chain.roundInfo(head).value;
      (targetRound > U32(current.current) ==>
        r.value.block.hash == head && r.value.block.number == chain.blockNumber(head).value) &&
      (targetRound <= U32(current.current) ==>
        var probe := ProbeBlock(chain.blockNumber(head).value, current.length, U32(current.current) - targetRound);
        chain.blockHash(probe).Ok? && chain.roundInfo(chain.blockHash(probe).value).Ok? &&
        var start := chain.roundInfo(chain.blockHash(probe).value).value.first;
        r.value.block.number == (if targetBlock == 0 then start else U64(start + targetBlock)) &&
        chain.blockHash(r.value.block.number) == Ok(r.value.block.hash))
    ensures r.Ok? ==>
      var h := r.value.block.hash;
      chain.roundInfo(h).Ok? && chain.blockTs(h).Ok? && chain.candidatePool(h).Ok? &&
      chain.selectedCandidates(h).Ok? && chain.bondLessDelay.Ok? &&
      chain.blockHash(SamplingBlock(r.value.block.number)).Ok? &&
      r.value.block.tsMillis == chain.blockTs(h).value &&
      r.value.round == SnapRound(U32(chain.roundInfo(h).value.current), U32(chain.roundInfo(h).value.length),
                                 U32(chain.roundInfo(h).value.first), chain.bondLessDelay.value) &&
      r.value.staking == SnapStaking(U32(|chain.selectedCandidates(h).value|), U32(|chain.candidatePool(h).value|))
  {
    var head := chain.latestHash;
    if head.Err? {
      return Err(head.error);
    }
    var blockHash := head.value;
    var number := chain.blockNumber(blockHash);
    if number.Err? {
      return Err(number.error);
    }
    var blockNumber := number.value;
    if targetRound != 0 || targetBlock != 0 {
      if targetRound == 0 {
        if U64(targetBlock) > blockNumber {
          return Err(InvalidBlockError(targetBlock, blockNumber));
        }
        blockNumber := U64(targetBlock);
        var h := chain.blockHash(blockNumber);
        if h.Err? {
          return Err(h.error);
        }
        blockHash := h.value;
      } else {
        var currentInfo := chain.roundInfo(blockHash);
        if currentInfo.Err? {
          return Err(currentInfo.error);
        }
        var currentRound := U32(currentInfo.value.current);
        if targetRound <= currentRound {
          var probe := ProbeBlock(blockNumber, currentInfo.value.length, currentRound - targetRound);
          var probeHash := chain.blockHash(probe);
          if probeHash.Err? {
            return Err(probeHash.error);
          }
          var probeInfo := chain.roundInfo(probeHash.value);
          if probeInfo.Err? {
            return Err(probeInfo.error);
          }
          blockNumber := probeInfo.value.first;
          if targetBlock != 0 {
            blockNumber := U64(blockNumber + targetBlock);
          }
          var targetHash := chain.blockHash(blockNumber);
          if targetHash.Err? {
            return Err(targetHash.error);
          }
          blockHash := targetHash.value;
        }
      }
    }
    var roundInfo := chain.roundInfo(blockHash);
    if roundInfo.Err? {
      return Err(roundInfo.error);
    }
    var blockTs := chain.blockTs(blockHash);
    if blockTs.Err? {
      return Err(blockTs.error);
    }
    var hashPast := chain.blockHash(SamplingBlock(blockNumber));
    if hashPast.Err? {
      return Err(hashPast.error);
    }
    var blockPastTs := chain.blockTs(hashPast.value);
    if blockPastTs.Err? {
      return Err(blockPastTs.error);
    }
    var pool, perm, inv := FetchSortedCandidatePool(chain.candidatePool(blockHash));
    if pool.Err? {
      return Err(pool.error);
    }
    var selected := chain.selectedCandidates(blockHash);
    if selected.Err? {
      return Err(selected.error);
    }
    var bondLessDelay := chain.bondLessDelay;
    if bondLessDelay.Err? {
      return Err(bondLessDelay.error);
    }
    r := Ok(Snap(
      SnapBlock(blockNumber, blockHash, blockTs.value),
      SnapRound(U32(roundInfo.value.current), U32(roundInfo.value.length), U32(roundInfo.value.first),
                bondLessDelay.value),
      SnapStaking(U32(|selected.value|), U32(|pool.value|))));
  }
}
