/** The client of the detection backend (src/lib/api.ts): base-address selection, the
    storage-URL helper, every operation's request as a value, and how each operation turns
    what the server sent back into its outcome. The transport itself is not modelled: a
    request is data, and a reply is an input. */
module Api {
  import opened Wrappers
  import opened JsString

  /** The development address used when no base address is configured. */
  const DefaultBaseUrl: string := "http://localhost:8000"

  /** `import.meta.env.VITE_API_URL || 'http://localhost:8000'`: an unset or empty setting
      selects the default. */
  function BaseUrl(viteApiUrl: Option<string>): (base: string)
    ensures viteApiUrl.Some? && viteApiUrl.value != "" ==> base == viteApiUrl.value
    ensures viteApiUrl.None? || viteApiUrl.value == "" ==> base == DefaultBaseUrl
    ensures base != ""
  {
    if viteApiUrl.Some? && viteApiUrl.value != "" then viteApiUrl.value else DefaultBaseUrl
  }

  /** `getStorageUrl(path)`: a path that starts with the four characters "http" is taken as
      already absolute; any other path is appended to the base address. */
  function GetStorageUrl(base: string, path: string): (url: string)
    ensures StartsWith(path, "http") ==> url == path
    ensures !StartsWith(path, "http") ==> url == base + path
  {
    if StartsWith(path, "http") then path else base + path
  }

  /** Resolving twice is resolving once, provided the base address itself starts with
      "http", so that a resolved path is always seen as absolute. */
  lemma StorageUrlIdempotent(base: string, path: string)
    requires StartsWith(base, "http")
    ensures GetStorageUrl(base, GetStorageUrl(base, path)) == GetStorageUrl(base, path)
  {
    if !StartsWith(path, "http") {
      PrefixOfConcat(base, path, "http");
    }
  }

  /** The default base address satisfies that proviso, and so does any configured one that
      starts with "http". */
  lemma BaseUrlIsAbsolute(viteApiUrl: Option<string>)
    requires viteApiUrl.None? || viteApiUrl.value == "" || StartsWith(viteApiUrl.value, "http")
    ensures StartsWith(BaseUrl(viteApiUrl), "http")
  {
  }

  /** With a relative base address the helper is not idempotent: the base is prefixed twice. */
  lemma StorageUrlNotIdempotentForRelativeBase()
    ensures GetStorageUrl("/backend", "/img.png") == "/backend/img.png"
    ensures GetStorageUrl("/backend", GetStorageUrl("/backend", "/img.png")) == "/backend/backend/img.png"
  {
    var once := "/backend" + "/img.png";
    assert once == "/backend/img.png";
    assert !StartsWith("/img.png", "http") by { assert "/img.png"[0] != "http"[0]; }
    assert !StartsWith(once, "http") by { assert once[0] == '/'; }
    assert "/backend" + once == "/backend/backend/img.png";
  }

  /** Conversely, for every non-empty base address that does not start with "http",
      resolving is not idempotent: the resolved root path "/" is resolved again and gets
      the base prefixed a second time. Together with `StorageUrlIdempotent` (and `BaseUrl`
      never being empty) idempotence holds exactly when the base starts with "http". */
  lemma StorageUrlIdempotentOnlyIfAbsoluteBase(base: string)
    requires base != "" && !StartsWith(base, "http")
    ensures GetStorageUrl(base, GetStorageUrl(base, "/")) != GetStorageUrl(base, "/")
  {
    var once := base + "/";
    assert !StartsWith("/", "http");
    if |base| >= 4 {
      assert once[..4] == base[..4];
    } else {
      assert once[|base|] == '/' != "http"[|base|];
    }
    assert !StartsWith(once, "http");
    assert |base + once| > |once|;
  }

  /** The check looks at the prefix only: a relative path that happens to begin with "http"
      is returned unchanged, without the base address. */
  lemma StorageUrlSchemeCheckIsPrefixOnly()
    ensures GetStorageUrl(DefaultBaseUrl, "httpdocs/img.png") == "httpdocs/img.png"
  {
  }

  // ---------------------------------------------------------------------------------------
  // Values sent to and received from the backend

  /** A user-chosen file: its name and MIME type (its bytes are not inspected by the client). */
  datatype File = File(name: string, mimeType: string)

  /** The optional `{lat, lng}` argument of `analyzeMedia`, as the strings the user typed. */
  datatype LocationInput = LocationInput(lat: string, lng: string)

  datatype HealthResponse = HealthResponse(status: string, modelLoaded: bool, geminiApiAvailable: bool)

  /** The fields of an analysis reply that the client reads; every one but `success` may be
      absent. */
  datatype AnalyzeMediaResponse = AnalyzeMediaResponse(
    success: bool,
    detection: Option<bool>,
    soldierCount: Option<int>,
    civilianCount: Option<int>,
    totalDetections: Option<int>,
    overlayImage: Option<string>,
    originalImage: Option<string>,
    message: Option<string>,
    error: Option<string>)

  datatype SegmentationResponse = SegmentationResponse(success: bool, overlayImage: Option<string>, error: Option<string>)

  /** One entry of `reports_used` in an assistant reply. */
  datatype ReportRef = ReportRef(reportId: string, timestamp: string, soldierCount: int)

  datatype MoraqibResponse = MoraqibResponse(
    success: bool,
    question: string,
    answer: string,
    reportsUsed: Option<seq<ReportRef>>,
    totalReports: Option<int>,
    error: Option<string>)

  /** The four time ranges of the report listing, and the parameter value of each. */
  datatype TimeRange = Last24h | Last7d | Last30d | All

  function TimeRangeCode(range: TimeRange): (code: string)
    ensures code in {"24h", "7d", "30d", "all"}
  {
    match range
    case Last24h => "24h"
    case Last7d => "7d"
    case Last30d => "30d"
    case All => "all"
  }

  /** Distinct time ranges are sent as distinct parameter values. */
  lemma TimeRangeCodeInjective(a: TimeRange, b: TimeRange)
    requires TimeRangeCode(a) == TimeRangeCode(b)
    ensures a == b
  {
  }

  // ---------------------------------------------------------------------------------------
  // Requests

  datatype HttpMethod = Get | Post

  /** A value appended to a form: a file, a text, or the JSON text `JSON.stringify({lat, lng})`
      of a location, whose character-level rendering is not modelled. */
  datatype FormValue = FileValue(file: File) | TextValue(text: string) | LocationJson(location: LocationInput)

  datatype FormEntry = FormEntry(name: string, value: FormValue)

  datatype QueryParam = QueryParam(name: string, value: string)

  /** A GET request carries no body; a POST carries a multipart form. */
  datatype Body = NoBody | Multipart(entries: seq<FormEntry>)

  /** What `fetch` is given: the HTTP method, the address before the query string, the query
      parameters in order (their percent-encoding is not modelled) and the body. */
  datatype Request = Request(verb: HttpMethod, url: string, query: seq<QueryParam>, body: Body)

  /** The browser's `FormData`: an ordered list of entries that `append` extends. */
  class FormData {
    var entries: seq<FormEntry>

    constructor ()
      ensures entries == []
    {
      entries := [];
    }

    method Append(name: string, value: FormValue)
      modifies this
      ensures entries == old(entries) + [FormEntry(name, value)]
    {
      entries := entries + [FormEntry(name, value)];
    }
  }

  function EntryNames(entries: seq<FormEntry>): (names: seq<string>)
    ensures |names| == |entries|
    ensures forall i :: 0 <= i < |entries| ==> names[i] == entries[i].name
  {
    if entries == [] then [] else [entries[0].name] + EntryNames(entries[1..])
  }

  /** `FormData.get(name)`: the value of the first entry with that name, if any. */
  function FormGet(entries: seq<FormEntry>, name: string): (v: Option<FormValue>)
    ensures v.None? <==> name !in EntryNames(entries)
    ensures v.Some? ==> FormEntry(name, v.value) in entries
  {
    if entries == [] then None
    else if entries[0].name == name then Some(entries[0].value)
    else FormGet(entries[1..], name)
  }

  /** `checkHealth()`: a plain GET of `/health`. */
  function HealthRequest(base: string): (r: Request)
    ensures r.verb == Get && r.url == base + "/health"
    ensures r.query == [] && r.body == NoBody
  {
    Request(Get, base + "/health", [], NoBody)
  }

  /** `analyzeMedia(file, location?)`: the file under `file`, then, only when a location is
      given, its JSON text under `location`. */
  method AnalyzeMediaRequest(base: string, file: File, location: Option<LocationInput>) returns (r: Request)
    ensures r.verb == Post && r.url == base + "/api/analyze_media" && r.query == []
    ensures r.body.Multipart?
    ensures EntryNames(r.body.entries) == if location.Some? then ["file", "location"] else ["file"]
    ensures FormGet(r.body.entries, "file") == Some(FileValue(file))
    ensures FormGet(r.body.entries, "location") == if location.Some? then Some(LocationJson(location.value)) else None
  {
    var form := new FormData();
    form.Append("file", FileValue(file));
    if location.Some? {
      form.Append("location", LocationJson(location.value));
    }
    r := Request(Post, base + "/api/analyze_media", [], Multipart(form.entries));
  }

  /** `testSegmentation(file)`: a form holding only the file. */
  method TestSegmentationRequest(base: string, file: File) returns (r: Request)
    ensures r.verb == Post && r.url == base + "/api/test_segmentation" && r.query == []
    ensures r.body == Multipart([FormEntry("file", FileValue(file))])
  {
    var form := new FormData();
    form.Append("file", FileValue(file));
    r := Request(Post, base + "/api/test_segmentation", [], Multipart(form.entries));
  }

  /** `processVideo(file)`: a form holding only the file. */
  method ProcessVideoRequest(base: string, file: File) returns (r: Request)
    ensures r.verb == Post && r.url == base + "/api/process_video" && r.query == []
    ensures r.body == Multipart([FormEntry("file", FileValue(file))])
  {
    var form := new FormData();
    form.Append("file", FileValue(file));
    r := Request(Post, base + "/api/process_video", [], Multipart(form.entries));
  }

  /** `queryMoraqib(query)`: a form holding only the question text. */
  method QueryMoraqibRequest(base: string, query: string) returns (r: Request)
    ensures r.verb == Post && r.url == base + "/api/moraqib_query" && r.query == []
    ensures r.body == Multipart([FormEntry("query", TextValue(query))])
  {
    var form := new FormData();
    form.Append("query", TextValue(query));
    r := Request(Post, base + "/api/moraqib_query", [], Multipart(form.entries));
  }

  /** `getDetectionReports(timeRange = '24h', limit = 100, offset = 0)`: exactly the three
      parameters `time_range`, `limit`, `offset`, in that order, the numbers in decimal.
      A non-negative number is rendered so that reading its digits back gives the number. */
  function DetectionReportsRequest(base: string, timeRange: TimeRange := Last24h, limit: int := 100, offset: int := 0): (r: Request)
    ensures r.verb == Get && r.url == base + "/api/detection-reports" && r.body == NoBody
    ensures |r.query| == 3
    ensures r.query[0].name == "time_range" && r.query[1].name == "limit" && r.query[2].name == "offset"
    ensures r.query[0].value == TimeRangeCode(timeRange)
    ensures limit >= 0 ==> r.query[1].value == NatToDecimal(limit) && ParseDigits(r.query[1].value) == limit
    ensures offset >= 0 ==> r.query[2].value == NatToDecimal(offset) && ParseDigits(r.query[2].value) == offset
  {
    NatToDecimalRoundTrip(if limit >= 0 then limit else 0);
    NatToDecimalRoundTrip(if offset >= 0 then offset else 0);
    Request(Get, base + "/api/detection-reports",
            [QueryParam("time_range", TimeRangeCode(timeRange)),
             QueryParam("limit", IntToDecimal(limit)),
             QueryParam("offset", IntToDecimal(offset))],
            NoBody)
  }

  /** Called with no arguments, the listing asks for the last 24 hours, 100 reports, from 0. */
  lemma DetectionReportsDefaults(base: string)
    ensures DetectionReportsRequest(base).query
         == [QueryParam("time_range", "24h"), QueryParam("limit", "100"), QueryParam("offset", "0")]
  {
    assert NatToDecimal(10) == "10";
    assert NatToDecimal(100) == "100";
  }

  /** `getDetectionStats(timeRange = '24h')`: the one parameter `time_range`, passed as given. */
  function DetectionStatsRequest(base: string, timeRange: string := "24h"): (r: Request)
    ensures r.verb == Get && r.url == base + "/api/detection-stats" && r.body == NoBody
    ensures r.query == [QueryParam("time_range", timeRange)]
  {
    Request(Get, base + "/api/detection-stats", [QueryParam("time_range", timeRange)], NoBody)
  }

  // ---------------------------------------------------------------------------------------
  // Outcomes

  /** Why a call failed: the network request itself failed, the body was not JSON, or the
      client threw an `Error` with this message. */
  datatype ClientError = NetworkFailure | MalformedJson | Thrown(message: string)

  /** What `fetch` resolved to: whether the status was in the 2xx range, and the body
      parsed as JSON (`None` when it is not JSON). */
  datatype HttpResponse<T> = HttpResponse(ok: bool, json: Option<T>)

  /** Every operation but `processVideo` returns `response.json()` whatever the status: the
      parsed body is the outcome, and only a network failure or a malformed body fails.
      `fetched` is `None` when `fetch` itself rejected. */
  function ReadJson<T>(fetched: Option<HttpResponse<T>>): (r: Result<T, ClientError>)
    ensures fetched.None? ==> r == Failure(NetworkFailure)
    ensures fetched.Some? && fetched.value.json.Some? ==> r == Success(fetched.value.json.value)
    ensures fetched.Some? && fetched.value.json.None? ==> r == Failure(MalformedJson)
  {
    match fetched
    case None => Failure(NetworkFailure)
    case Some(response) =>
      match response.json
      case None => Failure(MalformedJson)
      case Some(body) => Success(body)
  }

  /** The status is never consulted: a failed status with the same body gives the same outcome. */
  lemma ReadJsonIgnoresStatus<T>(json: Option<T>)
    ensures ReadJson(Some(HttpResponse(false, json))) == ReadJson(Some(HttpResponse(true, json)))
  {
  }

  /** The JSON error body of a failed video request: its `error` field, if present. */
  datatype ErrorBody = ErrorBody(error: Option<string>)

  /** What `fetch` resolved to for `processVideo`: the status flag, the error body parsed as
      JSON (`None` when it is not JSON) and the bytes of the body. */
  datatype VideoResponse = VideoResponse(ok: bool, errorJson: Option<ErrorBody>, blob: seq<bv8>)

  const VideoFailureMessage: string := "Video processing failed"

  /** `error.error || 'Video processing failed'`. */
  function VideoErrorMessage(body: ErrorBody): (m: string)
    ensures body.error.Some? && body.error.value != "" ==> m == body.error.value
    ensures body.error.None? || body.error.value == "" ==> m == VideoFailureMessage
  {
    if body.error.Some? && body.error.value != "" then body.error.value else VideoFailureMessage
  }

  /** `processVideo`, the one operation that inspects the status: a non-OK status throws
      with the server's message (or the fixed one), an OK status yields the body's bytes. */
  function ProcessVideoResult(fetched: Option<VideoResponse>): (r: Result<seq<bv8>, ClientError>)
    ensures r.Success? <==> fetched.Some? && fetched.value.ok
    ensures r.Success? ==> r.value == fetched.value.blob
    ensures fetched.None? ==> r == Failure(NetworkFailure)
    ensures (fetched.Some? && !fetched.value.ok && fetched.value.errorJson.Some?)
              ==> r == Failure(Thrown(VideoErrorMessage(fetched.value.errorJson.value)))
    ensures (fetched.Some? && !fetched.value.ok && fetched.value.errorJson.None?)
              ==> r == Failure(MalformedJson)
  {
    match fetched
    case None => Failure(NetworkFailure)
    case Some(response) =>
      if !response.ok then
        match response.errorJson
        case None => Failure(MalformedJson)
        case Some(body) => Failure(Thrown(VideoErrorMessage(body)))
      else
        Success(response.blob)
  }

  /** A failed video request whose body names an error surfaces exactly that message. */
  lemma VideoFailureCarriesServerMessage(message: string, blob: seq<bv8>)
    requires message != ""
    ensures ProcessVideoResult(Some(VideoResponse(false, Some(ErrorBody(Some(message))), blob)))
         == Failure(Thrown(message))
  {
  }
}
