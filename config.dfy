/** config/client.go: the chain connection settings and the cache lifetimes. */
module ConfigClient {

  /** `time.Duration`, in nanoseconds. */
  const SECOND: int := 1_000_000_000
  const HOUR: int := 3600 * SECOND

  /** Lifetime of a head-relative (un-hashed) cache entry: about two blocks. */
  const MIN_CACHE_TTL: int := 24 * SECOND
  /** Lifetime of a block-qualified cache entry. */
  const DEFAULT_CACHE_TTL: int := 24 * HOUR

  const NETWORK_SPECS: string := "moonbeam.1502"
  const NETWORK_SPECS_VERSION: nat := 1502

  datatype SnapConfig = SnapConfig(targetBlock: int, targetRound: nat)

  datatype ChainConfig = ChainConfig(
    endpoints: seq<string>,
    snap: SnapConfig,
    dialTimeout: int,
    subscribeTimeout: int,
    networkSpecs: string,
    networkSpecsVersion: nat)

  /** Two `wss://` endpoints on the given hosts and paths. */
  function Wss2(a: string, b: string): (urls: seq<string>)
    requires |a| > 0 && |b| > 0
    ensures |urls| == 2 && IsWss(urls[0]) && IsWss(urls[1])
  {
    var p := "wss://";
    assert (p + a)[..6] == p && (p + b)[..6] == p;
    [p + a, p + b]
  }

  /** A secure WebSocket URL. */
  predicate IsWss(u: string) { |u| > 6 && u[..6] == "wss://" }

  /** `extractDefaultRpcUrl`: the two public WebSocket endpoints of a known
      network name, otherwise the given string itself as the only endpoint. */
  function ExtractDefaultRpcUrl(endpoint: string): (urls: seq<string>)
    ensures |urls| >= 1
    ensures endpoint !in {"moonbeam", "moonriver", "moonbase"} ==> urls == [endpoint]
    ensures endpoint in {"moonbeam", "moonriver", "moonbase"} ==>
      |urls| == 2 && IsWss(urls[0]) && IsWss(urls[1])
  {
    match endpoint
    case "moonbeam" =>
      Wss2("moonbeam.api.onfinality.io/public-ws", "wss.api.moonbeam.network")
    case "moonriver" =>
      Wss2("moonriver.api.onfinality.io/public-ws", "wss.api.moonriver.moonbeam.network")
    case "moonbase" =>
      Wss2("moonbeam-alpha.api.onfinality.io/public-ws", "wss.api.moonbase.moonbeam.network")
    case _ => [endpoint]
  }

  /** `GetChainConfig`: the endpoints of the network, the requested snapshot
      point, fixed timeouts and the one bundled type registry. The endpoint
      list is never empty, so the random pick of `RpcUrl` always has a choice. */
  function GetChainConfig(endpoint: string, block: int, round: nat): (c: ChainConfig)
    ensures c.endpoints == ExtractDefaultRpcUrl(endpoint) && |c.endpoints| >= 1
    ensures c.snap.targetBlock == block && c.snap.targetRound == round
    ensures c.dialTimeout == 10 * SECOND && c.subscribeTimeout == 5 * SECOND
    ensures c.networkSpecs == NETWORK_SPECS && c.networkSpecsVersion == NETWORK_SPECS_VERSION
  {
    ChainConfig(ExtractDefaultRpcUrl(endpoint), SnapConfig(block, round),
                10 * SECOND, 5 * SECOND, NETWORK_SPECS, NETWORK_SPECS_VERSION)
  }

  /** `GetDefaultChainConfig`: Moonbeam at its head. */
  function GetDefaultChainConfig(): (c: ChainConfig)
    ensures c == GetChainConfig("moonbeam", 0, 0)
    ensures c.snap == SnapConfig(0, 0) && |c.endpoints| == 2
  {
    GetChainConfig("moonbeam", 0, 0)
  }

  /** The head-relative tier is much shorter than the block-qualified one. */
  lemma CacheTiers()
    ensures MIN_CACHE_TTL == 24 * SECOND && DEFAULT_CACHE_TTL == 24 * 3600 * SECOND
    ensures 0 < MIN_CACHE_TTL < DEFAULT_CACHE_TTL
  {
  }
}

/** config/display.go: table rendering options. */
module ConfigDisplay {
  import opened GoStrings

  /** go-pretty's `table.SortMode` values used here. */
  datatype SortMode = Asc | AscNumeric | Dsc | DscNumeric

  datatype TableOptions = TableOptions(compact: bool, sortKey: string, sortDesc: bool, revokeRounds: nat)

  /** `GetDefaultTableOptions`. */
  function GetDefaultTableOptions(): (o: TableOptions)
    ensures !o.compact && o.sortKey == "Rank" && !o.sortDesc && o.revokeRounds == 28
  {
    TableOptions(false, "Rank", false, 28)
  }

  /** `GetTableWidth`: 80 columns when compact, 120 otherwise. */
  function GetTableWidth(o: TableOptions): (w: int)
    ensures o.compact <==> w == 80
    ensures !o.compact <==> w == 120
  {
    if o.compact then 80 else 120
  }

  /** The columns sorted numerically. */
  predicate NumericKey(key: string)
  {
    EqualFold(key, "rank") || EqualFold(key, "balance") || EqualFold(key, "blocks") || EqualFold(key, "blocks avg")
  }

  /** `GetSortMode`: numeric columns sort numerically in the requested
      direction; every other column sorts descending whatever was requested. */
  function GetSortMode(o: TableOptions): (m: SortMode)
    ensures m != Asc
    ensures m in {AscNumeric, DscNumeric} <==> NumericKey(o.sortKey)
    ensures NumericKey(o.sortKey) ==> (m == DscNumeric <==> o.sortDesc)
    ensures !NumericKey(o.sortKey) ==> m == Dsc
  {
    if NumericKey(o.sortKey) then
      (if o.sortDesc then DscNumeric else AscNumeric)
    else
      (if o.sortDesc then Dsc else Dsc)
  }

  /** The defaults give an ascending numeric sort by rank on a wide table. */
  lemma DefaultSortMode()
    ensures GetSortMode(GetDefaultTableOptions()) == AscNumeric
    ensures GetTableWidth(GetDefaultTableOptions()) == 120
  {
    var o := GetDefaultTableOptions();
    assert FoldChar('R') == 'r';
    assert EqualFold(o.sortKey, "rank");
  }
}
