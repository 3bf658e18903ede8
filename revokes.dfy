/** collators.go, `computeRevokes`: the projection of every collator's
    counted stake and rank over the rounds `first .. last`, as the scheduled
    revokes of its delegators take effect. */
module Revokes {
  import opened Wrappers
  import opened GoInts
  import opened Token
  import opened Delegator
  import opened Sorting
  import opened Collators

  // ---------------------------------------------------------------------
  // The projection, as functions of the collected collators

  /** Every scheduled revoke amount is present (`AsBigInt` of a nil amount
      panics). */
  predicate AmountsKnown(ds: seq<DelegatorState>)
  {
    forall k :: 0 <= k < |ds| ==> ds[k].revokeAmount.balance.Some?
  }

  /** What the projection reads of a collator is present. */
  predicate Projectable(c: CollatorInfo)
  {
    c.counted.balance.Some? && AmountsKnown(c.delegations)
  }

  /** A delegation is charged in `round` of the window `first .. last`: in
      its own revoke round, in the first round when that is already past,
      and in the last round when it lies beyond the window. */
  predicate ChargedIn(d: DelegatorState, round: nat, first: nat, last: nat)
  {
    d.revokeRound == round ||
    (round == first && d.revokeRound < round) ||
    (round == last && d.revokeRound > round)
  }

  /** The amount charged to the delegations `ds` in `round`. */
  function Withdrawn(ds: seq<DelegatorState>, round: nat, first: nat, last: nat): int
    requires AmountsKnown(ds)
  {
    if ds == [] then 0
    else
      var d := ds[|ds| - 1];
      Withdrawn(ds[..|ds| - 1], round, first, last) +
      (if ChargedIn(d, round, first, last) then d.revokeAmount.balance.value else 0)
  }

  /** The sum of every scheduled revoke. */
  function TotalRevoke(ds: seq<DelegatorState>): int
    requires AmountsKnown(ds)
  {
    if ds == [] then 0 else TotalRevoke(ds[..|ds| - 1]) + ds[|ds| - 1].revokeAmount.balance.value
  }

  /** The stake counted for `c` at the end of `round`: its counted stake,
      less everything charged from `first` up to `round`. */
  function Projected(c: CollatorInfo, round: nat, first: nat, last: nat): int
    requires Projectable(c) && first <= round
    decreases round - first
  {
    var entering := if round == first then c.counted.balance.value else Projected(c, round - 1, first, last);
    entering - Withdrawn(c.delegations, round, first, last)
  }

  /** The round of the window in which a revoke scheduled for `r` is charged. */
  function Clamp(r: nat, first: nat, last: nat): (k: nat)
    requires first <= last
    ensures first <= k <= last
  {
    if r < first then first else if r > last then last else r
  }

  /** Within a non-empty window, a delegation is charged in exactly one
      round: its revoke round clamped to the window. */
  lemma ChargedOnce(d: DelegatorState, round: nat, first: nat, last: nat)
    requires first <= round <= last
    ensures ChargedIn(d, round, first, last) <==> round == Clamp(d.revokeRound, first, last)
  {
  }

  /** The amount charged to `ds` in the rounds `first .. end - 1`. */
  function WindowWithdrawn(ds: seq<DelegatorState>, first: nat, last: nat, end: nat): int
    requires AmountsKnown(ds)
  {
    if end <= first then 0
    else WindowWithdrawn(ds, first, last, end - 1) + Withdrawn(ds, end - 1, first, last)
  }

  /** The amount charged to one delegation in the rounds `first .. end - 1`. */
  function DelegationWindow(d: DelegatorState, first: nat, last: nat, end: nat): int
    requires d.revokeAmount.balance.Some?
  {
    if end <= first then 0
    else
      DelegationWindow(d, first, last, end - 1) +
      (if ChargedIn(d, end - 1, first, last) then d.revokeAmount.balance.value else 0)
  }

  lemma {:induction false} DelegationWindowValue(d: DelegatorState, first: nat, last: nat, end: nat)
    requires first <= last && d.revokeAmount.balance.Some? && end <= last + 1
    ensures DelegationWindow(d, first, last, end) ==
      if Clamp(d.revokeRound, first, last) < end then d.revokeAmount.balance.value else 0
  {
    if end > first {
      DelegationWindowValue(d, first, last, end - 1);
      ChargedOnce(d, end - 1, first, last);
    }
  }

  lemma {:induction false} WindowSplit(ds: seq<DelegatorState>, first: nat, last: nat, end: nat)
    requires AmountsKnown(ds) && ds != []
    ensures WindowWithdrawn(ds, first, last, end) ==
      WindowWithdrawn(ds[..|ds| - 1], first, last, end) + DelegationWindow(ds[|ds| - 1], first, last, end)
  {
    if end > first {
      WindowSplit(ds, first, last, end - 1);
    }
  }

  /** Over the whole window, the rounds charge every revoke exactly once. */
  lemma {:induction false} WindowTotal(ds: seq<DelegatorState>, first: nat, last: nat)
    requires AmountsKnown(ds) && first <= last
    ensures WindowWithdrawn(ds, first, last, last + 1) == TotalRevoke(ds)
  {
    if ds == [] {
      WindowEmpty(first, last, last + 1);
    } else {
      WindowSplit(ds, first, last, last + 1);
      WindowTotal(ds[..|ds| - 1], first, last);
      DelegationWindowValue(ds[|ds| - 1], first, last, last + 1);
    }
  }

  lemma {:induction false} WindowEmpty(first: nat, last: nat, end: nat)
    ensures WindowWithdrawn([], first, last, end) == 0
  {
    if end > first {
      WindowEmpty(first, last, end - 1);
    }
  }

  /** The projection at `round` is the counted stake less the window's
      charges up to and including `round`. */
  lemma {:induction false} ProjectedIsBaseMinusWindow(c: CollatorInfo, round: nat, first: nat, last: nat)
    requires Projectable(c) && first <= round
    ensures Projected(c, round, first, last) ==
      c.counted.balance.value - WindowWithdrawn(c.delegations, first, last, round + 1)
    decreases round - first
  {
    if round > first {
      ProjectedIsBaseMinusWindow(c, round - 1, first, last);
    }
  }

  /** At the last round of the window every scheduled revoke has been
      deducted, wherever its round lies. */
  lemma ProjectedAtLast(c: CollatorInfo, first: nat, last: nat)
    requires Projectable(c) && first <= last
    ensures Projected(c, last, first, last) == c.counted.balance.value - TotalRevoke(c.delegations)
  {
    ProjectedIsBaseMinusWindow(c, last, first, last);
    WindowTotal(c.delegations, first, last);
  }

  /** With one delegation, the stake drops by its revoke from the round it is
      charged in onwards, and not before. */
  lemma ProjectedSingle(c: CollatorInfo, round: nat, first: nat, last: nat)
    requires Projectable(c) && |c.delegations| == 1 && first <= round <= last
    ensures var d := c.delegations[0];
      Projected(c, round, first, last) ==
        c.counted.balance.value -
        (if Clamp(d.revokeRound, first, last) <= round then d.revokeAmount.balance.value else 0)
  {
    var ds := c.delegations;
    ProjectedIsBaseMinusWindow(c, round, first, last);
    WindowSplit(ds, first, last, round + 1);
    assert ds[..0] == [];
    WindowEmpty(first, last, round + 1);
    DelegationWindowValue(ds[0], first, last, round + 1);
  }

  /** Without delegations, the stake stays as counted in every round. */
  lemma ProjectedNoDelegations(c: CollatorInfo, round: nat, first: nat, last: nat)
    requires Projectable(c) && c.delegations == [] && first <= round
    ensures Projected(c, round, first, last) == c.counted.balance.value
  {
    ProjectedIsBaseMinusWindow(c, round, first, last);
    WindowEmpty(first, last, round + 1);
  }

  lemma {:induction false} WithdrawnNonNegative(ds: seq<DelegatorState>, round: nat, first: nat, last: nat)
    requires AmountsKnown(ds) && forall k :: 0 <= k < |ds| ==> ds[k].revokeAmount.balance.value >= 0
    ensures Withdrawn(ds, round, first, last) >= 0
  {
    if ds != [] {
      WithdrawnNonNegative(ds[..|ds| - 1], round, first, last);
    }
  }

  /** With non-negative revoke amounts, the projected stake never grows from
      one round to the next. */
  lemma ProjectedNonIncreasing(c: CollatorInfo, round: nat, first: nat, last: nat)
    requires Projectable(c) && first <= round
    requires forall k :: 0 <= k < |c.delegations| ==> c.delegations[k].revokeAmount.balance.value >= 0
    ensures Projected(c, round + 1, first, last) <= Projected(c, round, first, last)
  {
    WithdrawnNonNegative(c.delegations, round + 1, first, last);
  }

  /** Some collator holds rank `k` in `round`. */
  ghost predicate RankHeld(cs: seq<CollatorInfo>, round: nat, k: nat)
  {
    exists i :: 0 <= i < |cs| && round in cs[i].revokes && cs[i].revokes[round].rank == k
  }

  /** The ranks of `round`: every collator has an entry with a counted stake,
      the ranks are `1 .. n` each given once, and a strictly larger counted
      stake has a strictly better rank. */
  ghost predicate RoundRanked(cs: seq<CollatorInfo>, round: nat)
  {
    (forall i :: 0 <= i < |cs| ==>
      round in cs[i].revokes && 1 <= cs[i].revokes[round].rank <= |cs| &&
      cs[i].revokes[round].counted.balance.Some?) &&
    (forall i, j :: 0 <= i < j < |cs| ==> cs[i].revokes[round].rank != cs[j].revokes[round].rank) &&
    (forall k :: 1 <= k <= |cs| ==> RankHeld(cs, round, k)) &&
    (forall i, j ::
       0 <= i < |cs| && 0 <= j < |cs| &&
       cs[i].revokes[round].counted.balance.value > cs[j].revokes[round].counted.balance.value ==>
       cs[i].revokes[round].rank < cs[j].revokes[round].rank)
  }

  /** What `computeRevokes` leaves behind, for the rounds `first .. end - 1`
      of the window `first .. last`: only the revoke maps change; each
      collator gets, for every round of the window, its projected stake and
      the amount charged in that round; other rounds keep their entries; and
      every round of the window is ranked. */
  ghost predicate Projection(before: seq<CollatorInfo>, after: seq<CollatorInfo>,
                             first: nat, last: nat, end: nat, info: Option<TokenInfo>)
    requires forall i :: 0 <= i < |before| ==> Projectable(before[i])
  {
    |after| == |before| &&
    (forall i :: 0 <= i < |before| ==> after[i] == before[i].(revokes := after[i].revokes)) &&
    (forall i, r :: 0 <= i < |before| && first <= r < end ==>
      r in after[i].revokes &&
      after[i].revokes[r].counted == AsBalance(Projected(before[i], r, first, last), info) &&
      after[i].revokes[r].amount == AsBalance(Withdrawn(before[i].delegations, r, first, last), info)) &&
    (forall i, r :: 0 <= i < |before| && !(first <= r < end) ==>
      (r in after[i].revokes <==> r in before[i].revokes) &&
      (r in before[i].revokes ==> after[i].revokes[r] == before[i].revokes[r])) &&
    (forall r :: first <= r < end ==> RoundRanked(after, r))
  }

  // ---------------------------------------------------------------------
  // The projection, in place

  /** Charges `round` to the delegations of one collator, starting from the
      stake it enters the round with (the inner loop of `computeRevokes`). */
  method Charge(ds: seq<DelegatorState>, start: int, round: nat, first: nat, last: nat)
    returns (counted: int, amount: int)
    requires AmountsKnown(ds)
    ensures amount == Withdrawn(ds, round, first, last)
    ensures counted == start - amount
  {
    counted, amount := start, 0;
    for k := 0 to |ds|
      invariant amount == Withdrawn(ds[..k], round, first, last)
      invariant counted == start - amount
    {
      assert ds[..k + 1][..k] == ds[..k];
      var d := ds[k];
      if d.revokeRound == round || (round == first && d.revokeRound < round) ||
         (round == last && d.revokeRound > round) {
        counted := counted - d.revokeAmount.balance.value;
        amount := amount + d.revokeAmount.balance.value;
      }
    }
    assert ds[..|ds|] == ds;
  }

  /** `sortEntry`: a collator's index with its projected stake and the amount
      charged in the round. */
  datatype RoundEntry = RoundEntry(index: nat, counted: int, amount: int)

  /** The order of a round's ranking: larger projected stakes first. */
  function CountedNotBelow(x: RoundEntry, y: RoundEntry): bool
  {
    x.counted >= y.counted
  }

  lemma CountedNotBelowIsPreorder()
    ensures TotalPreorder(CountedNotBelow)
  {
  }

  /** A collator can be projected for `round`: the previous round, if inside
      the window, is already projected. */
  predicate ReadyFor(c: CollatorInfo, round: nat, first: nat)
  {
    Projectable(c) &&
    (round > first ==> round - 1 in c.revokes && c.revokes[round - 1].counted.balance.Some?)
  }

  /** The stake a collator enters `round` with: its counted stake in the
      first round, the previous round's projection after that. */
  function EnteringStake(c: CollatorInfo, round: nat, first: nat): int
    requires ReadyFor(c, round, first)
  {
    if round > first then c.revokes[round - 1].counted.balance.value else c.counted.balance.value
  }

  /** `c` with the entry of `round` set to the given rank position and
      entry values. */
  function WithRevoke(c: CollatorInfo, round: nat, position: nat, e: RoundEntry, info: Option<TokenInfo>): CollatorInfo
  {
    c.(revokes := c.revokes[round := RevokeRound(position + 1, AsBalance(e.counted, info), AsBalance(e.amount, info))])
  }

  /** The entry of `c`, at index `index`, for `round`. */
  function EntryOf(c: CollatorInfo, index: nat, round: nat, first: nat, last: nat): (e: RoundEntry)
    requires ReadyFor(c, round, first)
    ensures e.index == index && e.amount == Withdrawn(c.delegations, round, first, last)
    ensures e.counted == EnteringStake(c, round, first) - e.amount
  {
    var w := Withdrawn(c.delegations, round, first, last);
    RoundEntry(index, EnteringStake(c, round, first) - w, w)
  }

  /** One iteration of the round loop of `computeRevokes`: every collator
      gets the entry of `round`, holding the stake it enters with less the
      round's charges, the charges, and the rank of that stake among all. */
  method ProjectRound(cs: array<CollatorInfo>, round: nat, first: nat, last: nat, info: Option<TokenInfo>)
    requires first <= round
    requires forall i :: 0 <= i < cs.Length ==> ReadyFor(cs[i], round, first)
    modifies cs
    ensures forall i :: 0 <= i < cs.Length ==>
      round in cs[i].revokes &&
      cs[i] == old(cs[i]).(revokes := old(cs[i].revokes)[round := cs[i].revokes[round]])
    ensures forall i :: 0 <= i < cs.Length ==>
      var e := EntryOf(old(cs[i]), i, round, first, last);
      cs[i].revokes[round].counted == AsBalance(e.counted, info) &&
      cs[i].revokes[round].amount == AsBalance(e.amount, info)
    ensures RoundRanked(cs[..], round)
  {
    var entries := RoundEntries(cs, round, first, last);
    ghost var e0 := entries[..];
    CountedNotBelowIsPreorder();
    ghost var perm, inv := SortBy(entries, CountedNotBelow);
    WriteRanks(cs, entries, round, info, e0, perm, inv);
  }

  /** The first loop of a round: one entry per collator, in pool order. */
  method RoundEntries(cs: array<CollatorInfo>, round: nat, first: nat, last: nat)
    returns (entries: array<RoundEntry>)
    requires forall i :: 0 <= i < cs.Length ==> ReadyFor(cs[i], round, first)
    ensures fresh(entries) && entries.Length == cs.Length
    ensures forall j :: 0 <= j < cs.Length ==> entries[j] == EntryOf(cs[j], j, round, first, last)
  {
    var n := cs.Length;
    entries := new RoundEntry[n];
    for i := 0 to n
      modifies entries
      invariant forall j :: 0 <= j < i ==> entries[j] == EntryOf(cs[j], j, round, first, last)
    {
      var start := cs[i].counted.balance.value;
      if round > first {
        start := cs[i].revokes[round - 1].counted.balance.value;
      }
      var counted, amount := Charge(cs[i].delegations, start, round, first, last);
      entries[i] := RoundEntry(i, counted, amount);
    }
  }

  /** The last loop of a round: the collator of the entry at sorted position
      `k` gets rank `k + 1`. */
  method WriteRanks(cs: array<CollatorInfo>, entries: array<RoundEntry>, round: nat, info: Option<TokenInfo>,
                    ghost e0: seq<RoundEntry>, ghost perm: seq<nat>, ghost inv: seq<nat>)
    requires entries.Length == cs.Length
    requires Rearranges(entries[..], e0, perm, inv) && SortedBy(entries[..], CountedNotBelow)
    requires forall j :: 0 <= j < |e0| ==> e0[j].index == j
    modifies cs
    ensures forall i :: 0 <= i < cs.Length ==> cs[i] == WithRevoke(old(cs[i]), round, inv[i], e0[i], info)
    ensures RoundRanked(cs[..], round)
  {
    var n := cs.Length;
    for k := 0 to n
      invariant forall i :: 0 <= i < n && inv[i] < k ==> cs[i] == WithRevoke(old(cs[i]), round, inv[i], e0[i], info)
      invariant forall i :: 0 <= i < n && inv[i] >= k ==> cs[i] == old(cs[i])
    {
      var e := entries[k];
      assert e == e0[perm[k]] && e.index == perm[k] && inv[perm[k]] == k;
      cs[e.index] := WithRevoke(cs[e.index], round, k, e, info);
    }
    RanksFromSort(cs[..], e0, entries[..], perm, inv, round, info);
  }

  /** Writing sorted positions as ranks ranks the round. */
  lemma RanksFromSort(after: seq<CollatorInfo>, e0: seq<RoundEntry>, sorted: seq<RoundEntry>,
                      perm: seq<nat>, inv: seq<nat>, round: nat, info: Option<TokenInfo>)
    requires Rearranges(sorted, e0, perm, inv) && SortedBy(sorted, CountedNotBelow)
    requires |after| == |e0|
    requires forall i :: 0 <= i < |after| ==>
      round in after[i].revokes &&
      after[i].revokes[round] == RevokeRound(inv[i] + 1, AsBalance(e0[i].counted, info), AsBalance(e0[i].amount, info))
    ensures RoundRanked(after, round)
  {
    var n := |after|;
    forall k | 1 <= k <= n
      ensures RankHeld(after, round, k)
    {
      var i := perm[k - 1];
      assert after[i].revokes[round].rank == k;
    }
    forall i, j | 0 <= i < n && 0 <= j < n &&
      after[i].revokes[round].counted.balance.value > after[j].revokes[round].counted.balance.value
      ensures after[i].revokes[round].rank < after[j].revokes[round].rank
    {
      assert sorted[inv[i]] == e0[i] && sorted[inv[j]] == e0[j];
      assert inv[j] < inv[i] ==> CountedNotBelow(sorted[inv[j]], sorted[inv[i]]);
      assert inv[i] == inv[j] ==> i == j by {
        assert perm[inv[i]] == i && perm[inv[j]] == j;
      }
    }
    forall i, j | 0 <= i < j < n
      ensures after[i].revokes[round].rank != after[j].revokes[round].rank
    {
      assert perm[inv[i]] == i && perm[inv[j]] == j;
    }
  }

  /** A round's ranking survives changes to other rounds' entries. */
  lemma RoundRankedFrame(prev: seq<CollatorInfo>, after: seq<CollatorInfo>, round: nat)
    requires |prev| == |after| && RoundRanked(prev, round)
    requires forall i :: 0 <= i < |prev| ==>
      round in after[i].revokes && after[i].revokes[round] == prev[i].revokes[round]
    ensures RoundRanked(after, round)
  {
    forall k | 1 <= k <= |after|
      ensures RankHeld(after, round, k)
    {
      assert RankHeld(prev, round, k);
      var i :| 0 <= i < |prev| && round in prev[i].revokes && prev[i].revokes[round].rank == k;
      assert after[i].revokes[round].rank == k;
    }
  }

  /** After rounds `first .. end - 1`, the collators are ready for `end`. */
  lemma ProjectionReady(before: seq<CollatorInfo>, cur: seq<CollatorInfo>,
                        first: nat, last: nat, end: nat, info: Option<TokenInfo>)
    requires forall i :: 0 <= i < |before| ==> Projectable(before[i])
    requires first <= end && Projection(before, cur, first, last, end, info)
    ensures forall i :: 0 <= i < |cur| ==> ReadyFor(cur[i], end, first)
    ensures forall i :: 0 <= i < |cur| ==> end > first ==>
      EnteringStake(cur[i], end, first) == Projected(before[i], end - 1, first, last)
  {
    forall i | 0 <= i < |cur|
      ensures ReadyFor(cur[i], end, first)
    {
      assert cur[i].counted == before[i].counted && cur[i].delegations == before[i].delegations;
    }
  }

  /** The facts about one projected round that `ProjectionStep` extends a
      projection with. */
  ghost predicate RoundWritten(prev: seq<CollatorInfo>, after: seq<CollatorInfo>,
                               first: nat, last: nat, end: nat, info: Option<TokenInfo>)
    requires forall i :: 0 <= i < |prev| ==> ReadyFor(prev[i], end, first)
  {
    |after| == |prev| &&
    (forall i :: 0 <= i < |prev| ==>
      end in after[i].revokes &&
      after[i] == prev[i].(revokes := prev[i].revokes[end := after[i].revokes[end]])) &&
    (forall i :: 0 <= i < |prev| ==>
      var e := EntryOf(prev[i], i, end, first, last);
      after[i].revokes[end].counted == AsBalance(e.counted, info) &&
      after[i].revokes[end].amount == AsBalance(e.amount, info))
  }

  /** One collator after the entry of round `end` is written: still the
      collator it was before the projection except for its revoke map, and
      projected for every round up to `end`. */
  lemma StepOne(b: CollatorInfo, p: CollatorInfo, a: CollatorInfo, index: nat,
                first: nat, last: nat, end: nat, info: Option<TokenInfo>)
    requires Projectable(b) && first <= end && ReadyFor(p, end, first)
    requires p == b.(revokes := p.revokes)
    requires forall r :: first <= r < end ==>
      r in p.revokes &&
      p.revokes[r].counted == AsBalance(Projected(b, r, first, last), info) &&
      p.revokes[r].amount == AsBalance(Withdrawn(b.delegations, r, first, last), info)
    requires end in a.revokes && a == p.(revokes := p.revokes[end := a.revokes[end]])
    requires a.revokes[end].counted == AsBalance(EntryOf(p, index, end, first, last).counted, info)
    requires a.revokes[end].amount == AsBalance(EntryOf(p, index, end, first, last).amount, info)
    ensures a == b.(revokes := a.revokes)
    ensures forall r :: first <= r < end + 1 ==>
      r in a.revokes &&
      a.revokes[r].counted == AsBalance(Projected(b, r, first, last), info) &&
      a.revokes[r].amount == AsBalance(Withdrawn(b.delegations, r, first, last), info)
  {
    assert EntryOf(p, index, end, first, last).counted == Projected(b, end, first, last) by {
      if end > first {
        assert p.revokes[end - 1].counted == AsBalance(Projected(b, end - 1, first, last), info);
      }
    }
    forall r | first <= r < end + 1
      ensures r in a.revokes
      ensures a.revokes[r].counted == AsBalance(Projected(b, r, first, last), info)
      ensures a.revokes[r].amount == AsBalance(Withdrawn(b.delegations, r, first, last), info)
    {
      if r < end {
        assert a.revokes[r] == p.revokes[r];
      }
    }
  }

  lemma StepEntries(before: seq<CollatorInfo>, prev: seq<CollatorInfo>, after: seq<CollatorInfo>,
                    first: nat, last: nat, end: nat, info: Option<TokenInfo>)
    requires forall i :: 0 <= i < |before| ==> Projectable(before[i])
    requires first <= end && Projection(before, prev, first, last, end, info)
    requires forall i :: 0 <= i < |prev| ==> ReadyFor(prev[i], end, first)
    requires RoundWritten(prev, after, first, last, end, info)
    ensures forall i :: 0 <= i < |before| ==> after[i] == before[i].(revokes := after[i].revokes)
    ensures forall i, r :: 0 <= i < |before| && first <= r < end + 1 ==>
      r in after[i].revokes &&
      after[i].revokes[r].counted == AsBalance(Projected(before[i], r, first, last), info) &&
      after[i].revokes[r].amount == AsBalance(Withdrawn(before[i].delegations, r, first, last), info)
  {
    forall i | 0 <= i < |before|
      ensures after[i] == before[i].(revokes := after[i].revokes)
      ensures forall r :: first <= r < end + 1 ==>
        r in after[i].revokes &&
        after[i].revokes[r].counted == AsBalance(Projected(before[i], r, first, last), info) &&
        after[i].revokes[r].amount == AsBalance(Withdrawn(before[i].delegations, r, first, last), info)
    {
      StepOne(before[i], prev[i], after[i], i, first, last, end, info);
    }
  }

  lemma StepOutside(before: seq<CollatorInfo>, prev: seq<CollatorInfo>, after: seq<CollatorInfo>,
                    first: nat, last: nat, end: nat, info: Option<TokenInfo>)
    requires forall i :: 0 <= i < |before| ==> Projectable(before[i])
    requires first <= end && Projection(before, prev, first, last, end, info)
    requires forall i :: 0 <= i < |prev| ==> ReadyFor(prev[i], end, first)
    requires RoundWritten(prev, after, first, last, end, info)
    ensures forall i, r :: 0 <= i < |before| && !(first <= r < end + 1) ==>
      (r in after[i].revokes <==> r in before[i].revokes) &&
      (r in before[i].revokes ==> after[i].revokes[r] == before[i].revokes[r])
  {
  }

  lemma StepRanked(prev: seq<CollatorInfo>, after: seq<CollatorInfo>,
                   first: nat, last: nat, end: nat, info: Option<TokenInfo>)
    requires first <= end
    requires forall r :: first <= r < end ==> RoundRanked(prev, r)
    requires forall i :: 0 <= i < |prev| ==> ReadyFor(prev[i], end, first)
    requires forall i :: 0 <= i < |prev| ==> forall r :: first <= r < end ==> r in prev[i].revokes
    requires RoundWritten(prev, after, first, last, end, info) && RoundRanked(after, end)
    ensures forall r :: first <= r < end + 1 ==> RoundRanked(after, r)
  {
    forall r | first <= r < end
      ensures RoundRanked(after, r)
    {
      RoundRankedFrame(prev, after, r);
    }
  }

  /** Projecting round `end` extends the projection by one round. */
  lemma ProjectionStep(before: seq<CollatorInfo>, prev: seq<CollatorInfo>, after: seq<CollatorInfo>,
                       first: nat, last: nat, end: nat, info: Option<TokenInfo>)
    requires forall i :: 0 <= i < |before| ==> Projectable(before[i])
    requires first <= end && Projection(before, prev, first, last, end, info)
    requires forall i :: 0 <= i < |prev| ==> ReadyFor(prev[i], end, first)
    requires RoundWritten(prev, after, first, last, end, info) && RoundRanked(after, end)
    ensures Projection(before, after, first, last, end + 1, info)
  {
    StepEntries(before, prev, after, first, last, end, info);
    StepOutside(before, prev, after, first, last, end, info);
    StepRanked(prev, after, first, last, end, info);
  }

  /** `computeRevokes(first, last)`: projects every round of the window in
      turn, taking the token description of the first collator for all
      entries. The Go loop counts a `uint32` up to `last` inclusive, so it
      terminates only for `last` below the largest `uint32`. */
  method ComputeRevokes(cs: array<CollatorInfo>, first: nat, last: nat)
    requires cs.Length > 0
    requires last < MAX_U32
    requires forall i :: 0 <= i < cs.Length ==> Projectable(cs[i])
    modifies cs
    ensures Projection(old(cs[..]), cs[..], first, last, if first <= last then last + 1 else first,
                       old(cs[0].counted.info))
  {
    var tokenInfo := cs[0].counted.info;
    ghost var before := cs[..];
    ghost var end := if first <= last then last + 1 else first;
    var round := first;
    while round <= last
      invariant first <= round && (first <= last ==> round <= last + 1)
      invariant first > last ==> round == first
      invariant Projection(before, cs[..], first, last, round, tokenInfo)
      decreases last + 1 - round
    {
      ghost var prev := cs[..];
      ProjectionReady(before, prev, first, last, round, tokenInfo);
      ProjectRound(cs, round, first, last, tokenInfo);
      assert RoundWritten(prev, cs[..], first, last, round, tokenInfo);
      ProjectionStep(before, prev, cs[..], first, last, round, tokenInfo);
      round := round + 1;
    }
    assert round == end;
  }
}
