/** Go's `sort.Slice`, which sorts a slice in place under a caller-supplied
    "less" function and is not stable. The model sorts an array under the
    non-strict order `le` (x may come before y); the order chosen among equal
    elements is this model's own, as the library leaves it unspecified. */
module Sorting {

  /** `le` is total and transitive. */
  ghost predicate TotalPreorder<T(!new)>(le: (T, T) -> bool)
  {
    (forall x, y :: le(x, y) || le(y, x)) &&
    (forall x, y, z :: le(x, y) && le(y, z) ==> le(x, z))
  }

  /** Every element may come before every later one. */
  ghost predicate SortedBy<T>(s: seq<T>, le: (T, T) -> bool)
  {
    forall i, j :: 0 <= i < j < |s| ==> le(s[i], s[j])
  }

  /** `perm` and `inv` are mutually inverse bijections of `0 .. n-1`. */
  ghost predicate Bijection(perm: seq<nat>, inv: seq<nat>, n: nat)
  {
    |perm| == n && |inv| == n &&
    (forall k :: 0 <= k < n ==> perm[k] < n && inv[perm[k]] == k) &&
    (forall j :: 0 <= j < n ==> inv[j] < n && perm[inv[j]] == j)
  }

  /** `s` lists the elements of `t`, element `k` of `s` being element
      `perm[k]` of `t`. */
  ghost predicate Rearranges<T>(s: seq<T>, t: seq<T>, perm: seq<nat>, inv: seq<nat>)
  {
    |s| == |t| && Bijection(perm, inv, |s|) &&
    forall k :: 0 <= k < |s| ==> s[k] == t[perm[k]]
  }

  /** The first `i` elements are in order. */
  ghost predicate SortedPrefix<T>(s: seq<T>, i: nat, le: (T, T) -> bool)
    requires i <= |s|
  {
    forall p, q :: 0 <= p < q < i ==> le(s[p], s[q])
  }

  /** The first `i + 1` elements are in order except for the one at `j`,
      which may come before everything after it. */
  ghost predicate Inserting<T>(s: seq<T>, j: nat, i: nat, le: (T, T) -> bool)
    requires j <= i < |s|
  {
    (forall p, q :: 0 <= p < q <= i && p != j && q != j ==> le(s[p], s[q])) &&
    (forall q :: j < q <= i ==> le(s[j], s[q]))
  }

  lemma StartInserting<T>(s: seq<T>, i: nat, le: (T, T) -> bool)
    requires i < |s| && SortedPrefix(s, i, le)
    ensures Inserting(s, i, i, le)
  {
  }

  /** Swapping the element being inserted with a predecessor that may not
      come before it moves the insertion point one step left. */
  lemma InsertStep<T(!new)>(s: seq<T>, j: nat, i: nat, le: (T, T) -> bool)
    requires TotalPreorder(le)
    requires 0 < j <= i < |s| && Inserting(s, j, i, le) && !le(s[j - 1], s[j])
    ensures Inserting(s[j - 1 := s[j]][j := s[j - 1]], j - 1, i, le)
  {
    var t := s[j - 1 := s[j]][j := s[j - 1]];
    assert le(s[j], s[j - 1]);
    forall p, q | 0 <= p < q <= i && p != j - 1 && q != j - 1
      ensures le(t[p], t[q])
    {
      if q == j {
        assert t[q] == s[j - 1] && t[p] == s[p];
      } else if p == j {
        assert t[p] == s[j - 1] && t[q] == s[q];
      }
    }
  }

  /** Once the predecessor may come before it, the element is in place. */
  lemma InsertDone<T(!new)>(s: seq<T>, j: nat, i: nat, le: (T, T) -> bool)
    requires TotalPreorder(le)
    requires j <= i < |s| && Inserting(s, j, i, le)
    requires j == 0 || le(s[j - 1], s[j])
    ensures SortedPrefix(s, i + 1, le)
  {
    forall p, q | 0 <= p < q <= i
      ensures le(s[p], s[q])
    {
      if q == j && p < j - 1 {
        assert le(s[p], s[j - 1]);
      }
    }
  }

  /** Sorts `a` in place by insertion with adjacent swaps. The ghost results
      say where each element came from. */
  method SortBy<T(!new)>(a: array<T>, le: (T, T) -> bool) returns (ghost perm: seq<nat>, ghost inv: seq<nat>)
    requires TotalPreorder(le)
    modifies a
    ensures SortedBy(a[..], le)
    ensures Rearranges(a[..], old(a[..]), perm, inv)
  {
    ghost var s0 := a[..];
    var n := a.Length;
    perm := seq(n, k => k);
    inv := seq(n, k => k);
    var i := 0;
    while i < n
      invariant 0 <= i <= n
      invariant SortedPrefix(a[..], i, le)
      invariant Rearranges(a[..], s0, perm, inv)
    {
      perm, inv := Insert(a, i, le, perm, inv, s0);
      i := i + 1;
    }
  }

  /** One pass of insertion sort: moves `a[i]` left past every predecessor
      that may not come before it. */
  method Insert<T(!new)>(a: array<T>, i: nat, le: (T, T) -> bool,
                         ghost perm: seq<nat>, ghost inv: seq<nat>, ghost s0: seq<T>)
    returns (ghost perm': seq<nat>, ghost inv': seq<nat>)
    requires TotalPreorder(le)
    requires i < a.Length && SortedPrefix(a[..], i, le)
    requires Rearranges(a[..], s0, perm, inv)
    modifies a
    ensures SortedPrefix(a[..], i + 1, le)
    ensures Rearranges(a[..], s0, perm', inv')
  {
    perm', inv' := perm, inv;
    StartInserting(a[..], i, le);
    var j := i;
    while j > 0 && !le(a[j - 1], a[j])
      invariant 0 <= j <= i
      invariant Inserting(a[..], j, i, le)
      invariant Rearranges(a[..], s0, perm', inv')
    {
      InsertStep(a[..], j, i, le);
      Swap(a, j, perm', inv', s0);
      perm', inv' := perm'[j - 1 := perm'[j]][j := perm'[j - 1]], inv'[perm'[j] := j - 1][perm'[j - 1] := j];
      j := j - 1;
    }
    InsertDone(a[..], j, i, le);
  }

  /** Exchanges `a[j-1]` and `a[j]`, keeping track of origins. */
  method Swap<T>(a: array<T>, j: nat, ghost perm: seq<nat>, ghost inv: seq<nat>, ghost s0: seq<T>)
    requires 0 < j < a.Length
    requires Rearranges(a[..], s0, perm, inv)
    modifies a
    ensures a[..] == old(a[..])[j - 1 := old(a[j])][j := old(a[j - 1])]
    ensures Rearranges(a[..], s0, perm[j - 1 := perm[j]][j := perm[j - 1]],
                       inv[perm[j] := j - 1][perm[j - 1] := j])
  {
    a[j - 1], a[j] := a[j], a[j - 1];
    ghost var perm' := perm[j - 1 := perm[j]][j := perm[j - 1]];
    ghost var inv' := inv[perm[j] := j - 1][perm[j - 1] := j];
    assert perm[j] != perm[j - 1] by {
      assert inv[perm[j]] == j && inv[perm[j - 1]] == j - 1;
    }
    forall k | 0 <= k < a.Length
      ensures perm'[k] < a.Length && inv'[perm'[k]] == k
    {
      if k != j && k != j - 1 {
        assert perm'[k] == perm[k];
        assert perm[k] != perm[j] && perm[k] != perm[j - 1] by {
          assert inv[perm[k]] == k;
        }
      }
    }
    forall m | 0 <= m < a.Length
      ensures inv'[m] < a.Length && perm'[inv'[m]] == m
    {
      if m != perm[j] && m != perm[j - 1] {
        assert inv'[m] == inv[m];
        assert inv[m] != j && inv[m] != j - 1 by {
          assert perm[inv[m]] == m;
        }
      }
    }
  }
}
