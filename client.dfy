/** internal/client/client.go: the blocks a past round starts and ends at,
    and the storage read-through cache (its keys, its two TTL tiers and the
    hit / miss / store discipline of `getStorage`). The RPC reads and the
    SCALE and JSON decoders are parameters. */
module Client {
  import opened Wrappers
  import opened GoInts
  import opened ConfigClient
  import opened Snap
  import Collators

  // ---------------------------------------------------------------------
  // Round boundaries
  // ---------------------------------------------------------------------

  /** The block `GetRoundStartHash(round)` asks the hash of: the snapshot
      round's start minus `(Number - round) * Length`, every step in
      `uint32` arithmetic. */
  function RoundStartBlock(r: SnapRound, round: nat): (b: nat)
    ensures IsU32(b)
  {
    U32(r.start - U32(U32(r.number - round) * r.length))
  }

  /** The block `GetRoundEndHash(round)` asks the hash of: the round's start
      block plus `Length - 2`, again in `uint32` arithmetic. */
  function RoundEndBlock(r: SnapRound, round: nat): (b: nat)
    ensures IsU32(b)
  {
    U32(RoundStartBlock(r, round) + r.length - 2)
  }

  /** A multiple of 2^32 times anything is a multiple of 2^32. */
  lemma MultipleTimes(x: int, y: int)
    requires x % TWO_32 == 0
    ensures (x * y) % TWO_32 == 0
  {
    var q := x / TWO_32;
    assert x == TWO_32 * q;
    assert x * y == TWO_32 * (q * y);
  }

  /** Wrapping a factor before multiplying does not change the wrapped
      product. */
  lemma WrapFactor(a: int, b: int)
    ensures U32(U32(a) * b) == U32(a * b)
  {
    MultipleTimes(U32(a) - a, b);
    assert (U32(a) - a) * b == U32(a) * b - a * b;
    U32Congruent(U32(a) * b, a * b);
  }

  /** Wrapping the subtrahend does not change the wrapped difference. */
  lemma WrapSubtrahend(s: int, x: int)
    ensures U32(s - U32(x)) == U32(s - x)
  {
    assert (s - U32(x)) - (s - x) == -(U32(x) - x);
    U32Congruent(s - U32(x), s - x);
  }

  lemma NatProduct(a: nat, b: nat)
    ensures a * b >= 0
  {
  }

  /** Taking at most `s` from a `uint32` `s` does not wrap. */
  lemma NoWrapBelow(s: int, d: int)
    requires IsU32(s) && 0 <= d <= s
    ensures U32(s - d) == s - d
  {
  }

  /** Wrapping after every step gives the same block as wrapping once at the
      end: the start block is `Start - (Number - round) * Length` modulo 2^32. */
  lemma RoundStartModular(r: SnapRound, round: nat)
    ensures RoundStartBlock(r, round) == U32(r.start - (r.number - round) * r.length)
  {
    var a := r.number - round;
    WrapFactor(a, r.length);
    WrapSubtrahend(r.start, U32(a) * r.length);
    WrapSubtrahend(r.start, a * r.length);
  }

  /** When the round lies back no further than the snapshot round and the
      walk back does not pass block 0, the start block is exact: the
      snapshot round's own start for `round == Number`, and `Length` blocks
      earlier for each round further back. */
  lemma RoundStartExact(r: SnapRound, round: nat)
    requires IsU32(r.start) && round <= r.number
    requires (r.number - round) * r.length <= r.start
    ensures RoundStartBlock(r, round) == r.start - (r.number - round) * r.length
    ensures round == r.number ==> RoundStartBlock(r, round) == r.start
  {
    var a := r.number - round;
    NatProduct(a, r.length);
    RoundStartModular(r, round);
    NoWrapBelow(r.start, a * r.length);
  }

  /** Under the same conditions, consecutive rounds start `Length` blocks
      apart. */
  lemma RoundStartsApart(r: SnapRound, round: nat)
    requires IsU32(r.start) && round < r.number
    requires (r.number - round) * r.length <= r.start
    ensures RoundStartBlock(r, round + 1) == RoundStartBlock(r, round) + r.length
  {
    assert (r.number - round) * r.length == (r.number - (round + 1)) * r.length + r.length;
    RoundStartExact(r, round);
    RoundStartExact(r, round + 1);
  }

  /** The end block is `Length - 2` blocks after the start, the second to
      last block of the round, when the round has at least two blocks and
      the sum stays within `uint32`. */
  lemma RoundEndInRound(r: SnapRound, round: nat)
    requires r.length >= 2 && RoundStartBlock(r, round) + r.length - 2 <= MAX_U32
    ensures RoundEndBlock(r, round) == RoundStartBlock(r, round) + r.length - 2
    ensures RoundStartBlock(r, round) <= RoundEndBlock(r, round) < RoundStartBlock(r, round) + r.length
  {
  }

  // ---------------------------------------------------------------------
  // Cache keys and TTL tiers
  // ---------------------------------------------------------------------

  /** A cached storage read: the cache key, the block it is read at and how
      long its decoded value is kept (nanoseconds, as `time.Duration`). */
  datatype ReadRequest = ReadRequest(key: string, hash: Collators.BlockHash, ttl: int)

  /** The key of a read that ignores the block: `pallet.method(args)`, where
      `args` is the `%v` text of the argument list. */
  function HeadKey(pallet: string, call: string, args: string): (k: string)
    ensures |k| > |pallet| && k[..|pallet|] == pallet && k[|pallet|] == '.' && k[|k| - 1] == ')'
    ensures '@' !in pallet && '@' !in call && '@' !in args ==> '@' !in k
  {
    pallet + "." + call + "(" + args + ")"
  }

  /** The key of a read at a given block: the head key, `@`, and the hash. */
  function BlockKey(pallet: string, call: string, args: string, hash: Collators.BlockHash): (k: string)
    ensures var head := HeadKey(pallet, call, args);
      |k| == |head| + 1 + |hash| && k[..|head|] == head && k[|head|] == '@' && k[|head| + 1..] == hash
  {
    HeadKey(pallet, call, args) + "@" + hash
  }

  /** `GetStorageRawWithTtl`: read at the snapshot block under the head key
      with the given TTL. */
  function RawWithTtlRequest(snapHash: Collators.BlockHash, pallet: string, call: string, ttl: int, args: string)
    : (q: ReadRequest)
    ensures q.hash == snapHash && q.ttl == ttl
  {
    ReadRequest(HeadKey(pallet, call, args), snapHash, ttl)
  }

  /** `GetStorageRaw`: as `GetStorageRawWithTtl` with the minimum TTL. */
  function RawRequest(snapHash: Collators.BlockHash, pallet: string, call: string, args: string): (q: ReadRequest)
    ensures q.hash == snapHash && q.ttl == MIN_CACHE_TTL
  {
    RawWithTtlRequest(snapHash, pallet, call, MIN_CACHE_TTL, args)
  }

  /** `GetStorageRawAt`: read at the given block under the block key with
      the default TTL. */
  function RawAtRequest(pallet: string, call: string, hash: Collators.BlockHash, args: string): (q: ReadRequest)
    ensures q.hash == hash && q.ttl == DEFAULT_CACHE_TTL
  {
    ReadRequest(BlockKey(pallet, call, args, hash), hash, DEFAULT_CACHE_TTL)
  }

  /** The two tiers: a head-relative read is kept for the short TTL and its
      key does not depend on the block, so reads at two snapshot blocks
      share one entry; a block-qualified read is kept for the long TTL, its
      key extends the head key with `@hash`, and reads at two different
      blocks never share an entry. */
  lemma ReadTiers(pallet: string, call: string, args: string, h1: Collators.BlockHash, h2: Collators.BlockHash)
    ensures RawRequest(h1, pallet, call, args).ttl < RawAtRequest(pallet, call, h1, args).ttl
    ensures RawRequest(h1, pallet, call, args).key == RawRequest(h2, pallet, call, args).key
    ensures RawAtRequest(pallet, call, h1, args).key ==
            RawRequest(h1, pallet, call, args).key + "@" + h1
    ensures h1 != h2 ==> RawAtRequest(pallet, call, h1, args).key != RawAtRequest(pallet, call, h2, args).key
  {
    CacheTiers();
    var prefix := HeadKey(pallet, call, args) + "@";
    if h1 != h2 {
      assert BlockKey(pallet, call, args, h1) == prefix + h1;
      assert BlockKey(pallet, call, args, h2) == prefix + h2;
      assert (prefix + h1)[|prefix|..] == h1;
      assert (prefix + h2)[|prefix|..] == h2;
    }
  }

  // ---------------------------------------------------------------------
  // The cache
  // ---------------------------------------------------------------------

  type Bytes = seq<bv8>

  /** A cache slot: the stored value (`None` for a stored nil) and the
      instant, in nanoseconds, it expires at. */
  datatype CacheEntry = CacheEntry(value: Option<Bytes>, expiresAt: int)

  /** What a read of `key` at instant `now` finds: the stored value while
      the slot has not expired, and a miss for a missing, expired or nil
      slot. */
  function Lookup(entries: map<string, CacheEntry>, key: string, now: int): (r: Option<Bytes>)
    ensures r.Some? <==> key in entries && now < entries[key].expiresAt && entries[key].value.Some?
    ensures r.Some? ==> r.value == entries[key].value.value
  {
    if key in entries && now < entries[key].expiresAt then entries[key].value else None
  }

  /** A value stored with a TTL is found until the TTL has run out and not
      after. */
  lemma StoredThenHit(entries: map<string, CacheEntry>, key: string, v: Bytes, now: int, ttl: int, later: int)
    requires now <= later
    ensures Lookup(entries[key := CacheEntry(Some(v), now + ttl)], key, later) ==
            (if later < now + ttl then Some(v) else None)
  {
  }

  /** Storing under one key leaves every other key's lookup unchanged. */
  lemma OtherKeysUnaffected(entries: map<string, CacheEntry>, key: string, e: CacheEntry, other: string, now: int)
    requires other != key
    ensures Lookup(entries[key := e], other, now) == Lookup(entries, other, now)
  {
  }

  /** The client's cache (`mcache.CacheDriver`): a map from key to slot. */
  class StorageCache {
    var entries: map<string, CacheEntry>

    constructor()
      ensures entries == map[]
    {
      entries := map[];
    }

    /** `getCache`: the live value stored under `key`, if any. */
    function GetCache(key: string, now: int): (r: Option<Bytes>)
      reads this
      ensures r.Some? <==> key in entries && now < entries[key].expiresAt && entries[key].value.Some?
      ensures r.Some? ==> r.value == entries[key].value.value
    {
      Lookup(entries, key, now)
    }

    /** `setCache`: store `value` under `key` until `now + ttl`. */
    method SetCache(key: string, value: Bytes, ttl: int, now: int)
      modifies this
      ensures entries == old(entries)[key := CacheEntry(Some(value), now + ttl)]
    {
      entries := entries[key := CacheEntry(Some(value), now + ttl)];
    }

    /** `getStorage`: a live cached value that unmarshals is the result and
        nothing is fetched. Otherwise the raw value is fetched and decoded to
        JSON; a fetch or decode error is returned and the cache is left
        alone; the decoded JSON is stored under the key with the request's
        TTL and then unmarshalled. `fetch` is the storage read at the
        request's block, `decode` the SCALE-to-JSON decoder and `unmarshal`
        `json.Unmarshal` into the target. */
    method GetStorage<T>(req: ReadRequest, now: int, fetch: Outcome<Bytes>,
                         decode: Bytes -> Outcome<Bytes>, unmarshal: Bytes -> Outcome<T>)
      returns (r: Outcome<T>)
      modifies this
      ensures var hit := old(GetCache(req.key, now));
        hit.Some? && unmarshal(hit.value).Ok? ==>
          r == unmarshal(hit.value) && entries == old(entries)
      ensures var hit := old(GetCache(req.key, now));
        (hit.None? || unmarshal(hit.value).Err?) && fetch.Err? ==>
          r == Err(fetch.error) && entries == old(entries)
      ensures var hit := old(GetCache(req.key, now));
        (hit.None? || unmarshal(hit.value).Err?) && fetch.Ok? && decode(fetch.value).Err? ==>
          r == Err(decode(fetch.value).error) && entries == old(entries)
      ensures var hit := old(GetCache(req.key, now));
        (hit.None? || unmarshal(hit.value).Err?) && fetch.Ok? && decode(fetch.value).Ok? ==>
          var j := decode(fetch.value).value;
          entries == old(entries)[req.key := CacheEntry(Some(j), now + req.ttl)] &&
          r == unmarshal(j)
    {
      var cached := GetCache(req.key, now);
      if cached.Some? {
        var target := unmarshal(cached.value);
        if target.Ok? {
          return target;
        }
      }
      if fetch.Err? {
        return Err(fetch.error);
      }
      var j := decode(fetch.value);
      if j.Err? {
        return Err(j.error);
      }
      SetCache(req.key, j.value, req.ttl, now);
      r := unmarshal(j.value);
    }
  }

  /** Two reads of one request: when the first one fetched (nothing live
      was cached) and succeeded, a second read before the TTL runs out
      returns the same value, whatever the storage would return then. */
  method ReadTwice<T>(c: StorageCache, req: ReadRequest, now: int, later: int,
                      fetch1: Outcome<Bytes>, fetch2: Outcome<Bytes>,
                      decode: Bytes -> Outcome<Bytes>, unmarshal: Bytes -> Outcome<T>)
    returns (r1: Outcome<T>, r2: Outcome<T>)
    requires now <= later < now + req.ttl
    modifies c
    ensures old(c.GetCache(req.key, now)).None? && r1.Ok? ==> r2 == r1
  {
    r1 := c.GetStorage(req, now, fetch1, decode, unmarshal);
    r2 := c.GetStorage(req, later, fetch2, decode, unmarshal);
  }
}
