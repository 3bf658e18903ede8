/** internal/server/httpd.go: the health check's staleness rule, the
    per-address routes and their status codes, and the headers of every
    JSON response. The HTTP server, its router and gzip wrapper, and the
    update ticker are not part of this model. */
module Httpd {
  import opened GoInts
  import opened GoStrings
  import opened ConfigClient
  import opened Collators
  import opened Data

  const MINUTE: int := 60 * SECOND

  /** `UpdateInterval` of the default server configuration
      (config/serve.go). */
  const DEFAULT_UPDATE_INTERVAL: int := 15 * MINUTE

  /** `maxUpdateDelta` as `ServeChainData` derives it from the update
      interval: one and a half intervals, in `time.Duration` (`int64`)
      arithmetic, where the product by three wraps around. */
  function MaxUpdateDelta(interval: int): (d: int)
    ensures 0 <= 3 * interval <= MAX_I64 ==> 2 * d <= 3 * interval < 2 * d + 2
    ensures MAX_I64 < 3 * interval < TWO_64 ==> 2 * d <= 3 * interval - TWO_64 + 1 && d <= 0
  {
    Quo(I64(interval * 3), 2)
  }

  /** The whole seconds of the staleness bound (`int64(d.Seconds())`). */
  function BoundSecs(maxDelta: int): int
  {
    Quo(maxDelta, SECOND)
  }

  /** With the default interval the health check tolerates 1350 seconds,
      22.5 minutes, since the last update. */
  lemma DefaultHealthBound()
    ensures MaxUpdateDelta(DEFAULT_UPDATE_INTERVAL) == 1350 * SECOND
    ensures BoundSecs(MaxUpdateDelta(DEFAULT_UPDATE_INTERVAL)) == 1350
  {
  }

  /** An interval flag above about 3.07e9 seconds (still a `uint32`) makes
      the tripled interval wrap to a negative duration, so the bound is
      negative and the health check reports 500 from the moment of the
      update on. */
  lemma WrappedIntervalAlwaysStale(secs: nat, now: int, tsSecs: int)
    requires IsU32(secs) && 3 * (secs * SECOND) > MAX_I64
    requires now >= tsSecs
    ensures MaxUpdateDelta(secs * SECOND) < 0
    ensures HealthStatus(now, tsSecs, MaxUpdateDelta(secs * SECOND)) == 500
  {
    assert 3 * (secs * SECOND) < TWO_64;
  }

  /** `HandleHealth`'s status at Unix second `now`: 500 when more whole
      seconds than the bound have passed since the published update, and
      200 otherwise, at the bound included. */
  function HealthStatus(now: int, tsSecs: int, maxDelta: int): (status: nat)
    ensures status == 500 || status == 200
    ensures status == 500 <==> now - tsSecs > BoundSecs(maxDelta)
  {
    if now - tsSecs > BoundSecs(maxDelta) then 500 else 200
  }

  /** Once stale, the published data stays stale until the next update;
      while fresh, it was fresh at every earlier instant after it was
      published. */
  lemma HealthMonotone(tsSecs: int, maxDelta: int, now: int, later: int)
    requires now <= later
    ensures HealthStatus(now, tsSecs, maxDelta) == 500 ==> HealthStatus(later, tsSecs, maxDelta) == 500
    ensures HealthStatus(later, tsSecs, maxDelta) == 200 ==> HealthStatus(now, tsSecs, maxDelta) == 200
  {
  }

  /** `HandleHealth` on the published state. */
  function HandleHealth(c: ChainData, now: int): (status: nat)
    reads c
    ensures status == 500 <==> now - c.info.tsSecs > BoundSecs(c.maxUpdateDelta)
    ensures status != 500 ==> status == 200
  {
    HealthStatus(now, c.GetInfo().tsSecs, c.maxUpdateDelta)
  }

  /** A response body: one of the JSON documents, or plain text. */
  datatype Body =
    | InfoJson(info: ChainInfo)
    | CollatorsJson(collators: CollatorData)
    | DelegationsJson(delegations: DelegationData)
    | Text(text: string)

  /** A response: status code, headers in the order set, body. */
  datatype Response = Response(status: nat, headers: seq<(string, string)>, body: Body)

  const CORS_HEADER: (string, string) := ("Access-Control-Allow-Origin", "*")
  const CACHE_HEADER: (string, string) := ("Cache-Control", "max-age:90, stale-if-error=600")

  /** `handleJsonResponse`: status 200 with the CORS and caching headers and
      the JSON content type. */
  function JsonResponse(body: Body): (r: Response)
    requires !body.Text?
    ensures r.status == 200 && r.body == body
    ensures CORS_HEADER in r.headers && CACHE_HEADER in r.headers
  {
    Response(200, [CORS_HEADER, CACHE_HEADER, ("Content-Type", "application/json; charset=utf-8")], body)
  }

  /** `http.Error`: the message and a newline as plain text. */
  function ErrorResponse(message: string, status: nat): (r: Response)
    ensures r.status == status && r.body == Text(message + "\n")
    ensures CORS_HEADER !in r.headers
  {
    Response(status, [("Content-Type", "text/plain; charset=utf-8"), ("X-Content-Type-Options", "nosniff")],
             Text(message + "\n"))
  }

  /** `HandleInfo`. */
  function HandleInfo(c: ChainData): (r: Response)
    reads c
    ensures r.status == 200 && r.body == InfoJson(c.info)
  {
    JsonResponse(InfoJson(c.GetInfo()))
  }

  /** `HandleCollators`. */
  function HandleCollators(c: ChainData): (r: Response)
    reads c
    ensures r.status == 200 && r.body == CollatorsJson(CollatorData(c.info, c.collators))
  {
    JsonResponse(CollatorsJson(c.GetCollators()))
  }

  /** A route `/name/address`, with no slash in the name, splits into three
      parts exactly when the address holds no slash, and the third part is
      then the address. */
  lemma {:induction false} RouteParts(name: string, address: string)
    requires '/' !in name
    ensures var parts := Split("/" + name + "/" + address, '/');
      (|parts| == 3 <==> '/' !in address) &&
      ('/' !in address ==> parts == ["", name, address])
  {
    var path := "/" + name + "/" + address;
    assert path == [] + ['/'] + (name + ['/'] + address);
    SplitAtFirst([], '/', name + ['/'] + address);
    SplitAtFirst(name, '/', address);
    CountZero(address, '/');
    if '/' !in address {
      SplitNoSeparator(address, '/');
    }
  }

  /** `HandleCollator`: the path must split on "/" into exactly three parts
      (else 400); the third is the address, and the collators matching it
      are returned, or 404 when there are none. For `/collators/<address>`
      the status is 200 exactly when some published collator has that
      address, ignoring case. */
  method HandleCollator(c: ChainData, path: string) returns (r: Response)
    ensures |Split(path, '/')| != 3 ==> r == ErrorResponse("Invalid arguments", 400)
    ensures |Split(path, '/')| == 3 ==>
      var address := Split(path, '/')[2];
      var found := CollatorsMatching(c.collators, address);
      (found != [] ==> r == JsonResponse(CollatorsJson(CollatorData(c.info, found)))) &&
      (found == [] ==> r == ErrorResponse("Collator '" + address + "' not found", 404))
    ensures forall address :: path == "/collators/" + address ==>
      ('/' in address ==> r.status == 400) &&
      ('/' !in address ==>
        (r.status == 200 <==> exists x :: x in c.collators && EqualFold(x.address, address)))
  {
    var p := Split(path, '/');
    if |p| == 3 {
      var address := p[2];
      var stats := c.GetCollator(address);
      if |stats.collators| > 0 {
        r := JsonResponse(CollatorsJson(stats));
      } else {
        r := ErrorResponse("Collator '" + address + "' not found", 404);
      }
    } else {
      r := ErrorResponse("Invalid arguments", 400);
    }
    CollatorRouteStatus(c.collators, path, r.status);
  }

  /** The status rule of `/collators/<address>`, from the status the
      handler gives for a path. */
  lemma CollatorRouteStatus(cs: seq<CollatorInfo>, path: string, status: nat)
    requires |Split(path, '/')| != 3 ==> status == 400
    requires |Split(path, '/')| == 3 ==> (status == 200 <==> CollatorsMatching(cs, Split(path, '/')[2]) != [])
    ensures forall address :: path == "/collators/" + address ==>
      ('/' in address ==> status == 400) &&
      ('/' !in address ==> (status == 200 <==> exists x :: x in cs && EqualFold(x.address, address)))
  {
    forall address | path == "/collators/" + address
      ensures '/' in address ==> status == 400
      ensures '/' !in address ==> (status == 200 <==> exists x :: x in cs && EqualFold(x.address, address))
    {
      assert path == "/" + "collators" + "/" + address;
      RouteParts("collators", address);
      CollatorsFound(cs, address);
    }
  }

  /** `HandleDelegations`: the same path rule over `GetDelegations`. For
      `/delegations/<address>` the status is 200 exactly when some
      delegation of some published collator concerns that address. */
  method HandleDelegations(c: ChainData, path: string) returns (r: Response)
    ensures |Split(path, '/')| != 3 ==> r == ErrorResponse("Invalid arguments", 400)
    ensures |Split(path, '/')| == 3 ==>
      var address := Split(path, '/')[2];
      var found := DelegationsMatching(c.collators, address);
      (found != [] ==> r == JsonResponse(DelegationsJson(DelegationData(c.info, found)))) &&
      (found == [] ==> r == ErrorResponse("Delegator '" + address + "' not found", 404))
    ensures forall address :: path == "/delegations/" + address ==>
      ('/' in address ==> r.status == 400) &&
      ('/' !in address ==>
        (r.status == 200 <==> exists i, j, row :: Listed(c.collators, i, j, address, row)))
  {
    var p := Split(path, '/');
    if |p| == 3 {
      var address := p[2];
      var stats := c.GetDelegations(address);
      if |stats.delegations| > 0 {
        r := JsonResponse(DelegationsJson(stats));
      } else {
        r := ErrorResponse("Delegator '" + address + "' not found", 404);
      }
    } else {
      r := ErrorResponse("Invalid arguments", 400);
    }
    DelegationsRouteStatus(c.collators, path, r.status);
  }

  /** The status rule of `/delegations/<address>`, from the status the
      handler gives for a path. */
  lemma DelegationsRouteStatus(cs: seq<CollatorInfo>, path: string, status: nat)
    requires |Split(path, '/')| != 3 ==> status == 400
    requires |Split(path, '/')| == 3 ==> (status == 200 <==> DelegationsMatching(cs, Split(path, '/')[2]) != [])
    ensures forall address :: path == "/delegations/" + address ==>
      ('/' in address ==> status == 400) &&
      ('/' !in address ==> (status == 200 <==> exists i, j, row :: Listed(cs, i, j, address, row)))
  {
    forall address | path == "/delegations/" + address
      ensures '/' in address ==> status == 400
      ensures '/' !in address ==> (status == 200 <==> exists i, j, row :: Listed(cs, i, j, address, row))
    {
      assert path == "/" + "delegations" + "/" + address;
      RouteParts("delegations", address);
      DelegationsFound(cs, address);
    }
  }
}
