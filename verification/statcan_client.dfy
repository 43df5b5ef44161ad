/** The client for the Statistics Canada Web Data Service,
    `utils/statcan_client.py`: the URLs and JSON bodies it builds, and the
    status check every call makes before returning the decoded body. The
    transport itself is a parameter `send`, from request to response. */
module StatCanClient {
  import opened PyJson

  const BaseUrl := "https://www150.statcan.gc.ca/t1/wds/rest"
  /** The rate limiter's window: at most this many calls ... */
  const RateLimitCalls := 20
  /** ... in this many seconds */
  const RateLimitPeriodSeconds := 1
  /** The per-call network timeout, in seconds */
  const TimeoutSeconds := 60
  /** The number of latest periods asked for when the caller names none */
  const DefaultPeriods := 10

  datatype Request =
    | GetRequest(url: string, params: Json, timeout: int)
    | PostRequest(url: string, body: Json, timeout: int)

  datatype Response = Response(status: int, body: Json)

  /** `f"{BASE_URL}/{endpoint}"`: the base, a slash, then exactly the
      endpoint, which can be read back off the URL. */
  function Url(endpoint: string): (url: string)
    ensures |url| == |BaseUrl| + 1 + |endpoint|
    ensures url[..|BaseUrl| + 1] == BaseUrl + "/"
    ensures url[|BaseUrl| + 1..] == endpoint
  {
    BaseUrl + "/" + endpoint
  }

  /** Distinct endpoints have distinct URLs. */
  lemma UrlInjective(a: string, b: string)
    ensures Url(a) == Url(b) ==> a == b
  {
    if Url(a) == Url(b) {
      assert a == Url(a)[|BaseUrl| + 1..];
    }
  }

  /** `rate_limited_get(endpoint, params=None)` */
  function RateLimitedGet(endpoint: string, params: Json := JNull): Request {
    GetRequest(Url(endpoint), params, TimeoutSeconds)
  }

  /** `rate_limited_post(endpoint, json_data=None)` */
  function RateLimitedPost(endpoint: string, body: Json := JNull): Request {
    PostRequest(Url(endpoint), body, TimeoutSeconds)
  }

  /** Both verbs address `BASE_URL/endpoint`, with the fixed timeout. */
  lemma BothVerbsShareUrl(endpoint: string, params: Json, body: Json)
    ensures RateLimitedGet(endpoint, params).url == RateLimitedPost(endpoint, body).url
    ensures RateLimitedGet(endpoint, params).url[|BaseUrl| + 1..] == endpoint
    ensures RateLimitedGet(endpoint, params).timeout == RateLimitedPost(endpoint, body).timeout == 60
  {
  }

  /** `response.raise_for_status(); return response.json()`: the body of a
      response whose status is in the 2xx class, otherwise an `HttpError`
      carrying the status. */
  function RaiseForStatus(resp: Response): (r: Result<Json>)
    ensures r.Ok? <==> resp.status / 100 == 2
    ensures r.Ok? ==> r.value == resp.body
    ensures r.Err? ==> r.error == HttpError(resp.status)
  {
    if 200 <= resp.status < 300 then Ok(resp.body) else Err(HttpError(resp.status))
  }

  /** One value per object of a request body, read back under `key` */
  function FieldOf(body: seq<Json>, key: string): seq<Json> {
    seq(|body|, i requires 0 <= i < |body| => if body[i].JObj? then GetOr(body[i].fields, key, JNull) else JNull)
  }

  /** The body of `get_cube_metadata`: one `{productId}` object per id */
  function CubeMetadataBody(productIds: seq<Json>): seq<Json> {
    seq(|productIds|, i requires 0 <= i < |productIds| => JObj(map["productId" := productIds[i]]))
  }

  /** The body of `get_data_from_vectors`: one `{vectorId, latestN}` object
      per vector */
  function DataBody(vectors: seq<Json>, numPeriods: Json): seq<Json> {
    seq(|vectors|, i requires 0 <= i < |vectors| =>
      JObj(map["vectorId" := vectors[i], "latestN" := numPeriods]))
  }

  /** The body of `get_series_info_from_vectors`: one `{vectorId}` object
      per vector */
  function SeriesInfoBody(vectors: seq<Json>): seq<Json> {
    seq(|vectors|, i requires 0 <= i < |vectors| => JObj(map["vectorId" := vectors[i]]))
  }

  /** The cube-metadata body has one single-key object per product id, in
      input order, and the ids can be read back from it. */
  lemma CubeMetadataBodyRoundTrip(productIds: seq<Json>)
    ensures |CubeMetadataBody(productIds)| == |productIds|
    ensures forall i :: 0 <= i < |productIds| ==>
              CubeMetadataBody(productIds)[i].JObj? && CubeMetadataBody(productIds)[i].fields.Keys == {"productId"}
    ensures FieldOf(CubeMetadataBody(productIds), "productId") == productIds
  {
  }

  /** The data body has one object per vector, in input order, each with
      exactly `vectorId` and `latestN`, the latter always `num_periods`. */
  lemma DataBodyRoundTrip(vectors: seq<Json>, numPeriods: Json)
    ensures |DataBody(vectors, numPeriods)| == |vectors|
    ensures forall i :: 0 <= i < |vectors| ==>
              DataBody(vectors, numPeriods)[i].JObj? &&
              DataBody(vectors, numPeriods)[i].fields.Keys == {"vectorId", "latestN"}
    ensures FieldOf(DataBody(vectors, numPeriods), "vectorId") == vectors
    ensures forall v :: v in FieldOf(DataBody(vectors, numPeriods), "latestN") ==> v == numPeriods
  {
  }

  /** The series-info body has one single-key object per vector, in input
      order, and the vectors can be read back from it. */
  lemma SeriesInfoBodyRoundTrip(vectors: seq<Json>)
    ensures |SeriesInfoBody(vectors)| == |vectors|
    ensures forall i :: 0 <= i < |vectors| ==>
              SeriesInfoBody(vectors)[i].JObj? && SeriesInfoBody(vectors)[i].fields.Keys == {"vectorId"}
    ensures FieldOf(SeriesInfoBody(vectors), "vectorId") == vectors
  {
  }

  /** `f'getChangedCubeList/{date}'` */
  function ChangedCubesEndpoint(date: Json): string {
    "getChangedCubeList/" + PyStr(date)
  }

  /** The date of an ISO date string is the tail of its endpoint. */
  lemma ChangedCubesEndpointTail(date: string)
    ensures ChangedCubesEndpoint(JStr(date))[..19] == "getChangedCubeList/"
    ensures ChangedCubesEndpoint(JStr(date))[19..] == date
  {
  }

  /** `get_all_cubes_lite()` */
  function GetAllCubesLite(send: Request -> Response): (r: Result<Json>)
    ensures var resp := send(GetRequest(Url("getAllCubesListLite"), JNull, TimeoutSeconds));
      && (r.Ok? <==> 200 <= resp.status < 300)
      && (r.Ok? ==> r.value == resp.body)
      && (r.Err? ==> r.error == HttpError(resp.status))
  {
    RaiseForStatus(send(RateLimitedGet("getAllCubesListLite")))
  }

  /** `get_cube_metadata(product_ids)` */
  function GetCubeMetadata(send: Request -> Response, productIds: seq<Json>): (r: Result<Json>)
    ensures var resp := send(PostRequest(Url("getCubeMetadata"), JArr(CubeMetadataBody(productIds)), TimeoutSeconds));
      && (r.Ok? <==> 200 <= resp.status < 300)
      && (r.Ok? ==> r.value == resp.body)
      && (r.Err? ==> r.error == HttpError(resp.status))
  {
    RaiseForStatus(send(RateLimitedPost("getCubeMetadata", JArr(CubeMetadataBody(productIds)))))
  }

  /** `get_data_from_vectors(vectors, num_periods=10)` */
  function GetDataFromVectors(send: Request -> Response, vectors: seq<Json>, numPeriods: Json := JInt(DefaultPeriods)): (r: Result<Json>)
    ensures var resp := send(PostRequest(Url("getDataFromVectorsAndLatestNPeriods"), JArr(DataBody(vectors, numPeriods)), TimeoutSeconds));
      && (r.Ok? <==> 200 <= resp.status < 300)
      && (r.Ok? ==> r.value == resp.body)
      && (r.Err? ==> r.error == HttpError(resp.status))
  {
    RaiseForStatus(send(RateLimitedPost("getDataFromVectorsAndLatestNPeriods", JArr(DataBody(vectors, numPeriods)))))
  }

  /** `get_series_info_from_vectors(vectors)` */
  function GetSeriesInfoFromVectors(send: Request -> Response, vectors: seq<Json>): (r: Result<Json>)
    ensures var resp := send(PostRequest(Url("getSeriesInfoFromVector"), JArr(SeriesInfoBody(vectors)), TimeoutSeconds));
      && (r.Ok? <==> 200 <= resp.status < 300)
      && (r.Ok? ==> r.value == resp.body)
      && (r.Err? ==> r.error == HttpError(resp.status))
  {
    RaiseForStatus(send(RateLimitedPost("getSeriesInfoFromVector", JArr(SeriesInfoBody(vectors)))))
  }

  /** `get_changed_cube_list(date)` */
  function GetChangedCubeList(send: Request -> Response, date: Json): (r: Result<Json>)
    ensures var resp := send(GetRequest(Url("getChangedCubeList/" + PyStr(date)), JNull, TimeoutSeconds));
      && (r.Ok? <==> 200 <= resp.status < 300)
      && (r.Ok? ==> r.value == resp.body)
      && (r.Err? ==> r.error == HttpError(resp.status))
  {
    RaiseForStatus(send(RateLimitedGet(ChangedCubesEndpoint(date))))
  }

  /** Whether the transport answers `r` with a 2xx status */
  predicate Succeeds(send: Request -> Response, r: Request) {
    200 <= send(r).status < 300
  }

  /** Every call returns the decoded body exactly when its one request
      succeeds, and otherwise raises with the response's status. */
  lemma CallsCheckStatus(send: Request -> Response, productIds: seq<Json>, vectors: seq<Json>, numPeriods: Json, date: Json)
    ensures var r := RateLimitedGet("getAllCubesListLite");
      GetAllCubesLite(send) == if Succeeds(send, r) then Ok(send(r).body) else Err(HttpError(send(r).status))
    ensures var r := RateLimitedPost("getCubeMetadata", JArr(CubeMetadataBody(productIds)));
      GetCubeMetadata(send, productIds) == if Succeeds(send, r) then Ok(send(r).body) else Err(HttpError(send(r).status))
    ensures var r := RateLimitedPost("getDataFromVectorsAndLatestNPeriods", JArr(DataBody(vectors, numPeriods)));
      GetDataFromVectors(send, vectors, numPeriods) == if Succeeds(send, r) then Ok(send(r).body) else Err(HttpError(send(r).status))
    ensures var r := RateLimitedPost("getSeriesInfoFromVector", JArr(SeriesInfoBody(vectors)));
      GetSeriesInfoFromVectors(send, vectors) == if Succeeds(send, r) then Ok(send(r).body) else Err(HttpError(send(r).status))
    ensures var r := RateLimitedGet(ChangedCubesEndpoint(date));
      GetChangedCubeList(send, date) == if Succeeds(send, r) then Ok(send(r).body) else Err(HttpError(send(r).status))
  {
  }

  /** Left to its default, `num_periods` asks for the latest 10 periods of
      every vector. */
  lemma DefaultPeriodsRequest(send: Request -> Response, vectors: seq<Json>)
    ensures GetDataFromVectors(send, vectors) == GetDataFromVectors(send, vectors, JInt(10))
    ensures forall v :: v in FieldOf(DataBody(vectors, JInt(DefaultPeriods)), "latestN") ==> v == JInt(10)
  {
  }
}
