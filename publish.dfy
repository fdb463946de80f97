/** The publisher of generate_chart.py (`upload_chart`): read the current
    version marker (`sha`) of the chart in the GitHub repository, then PUT the
    new content, as an update when a marker was found and as a create
    otherwise. The two HTTP replies are inputs; what the script does with them
    is the model. */
module Publish {
  import opened Optional

  const DEFAULT_REPO_PATH: string := "charts/dot_chart.png"
  const BRANCH: string := "main"

  /** A decoded JSON value; JSON `null` is Python's `None`. */
  datatype Value =
    | Null
    | Bool(b: bool)
    | Number(n: real)
    | Str(s: string)
    | Array(items: seq<Value>)
    | Object(fields: map<string, Value>)

  /** Python truthiness of a decoded JSON value, as `if sha:` tests it: the
      falsy values are exactly None, False, zero and the empty string, list
      and dict. */
  predicate Truthy(v: Value)
    ensures !Truthy(v) <==>
      v in {Null, Bool(false), Number(0.0), Str(""), Array([]), Object(map[])}
  {
    match v
    case Null => false
    case Bool(b) => b
    case Number(n) => n != 0.0
    case Str(s) => s != ""
    case Array(items) => items != []
    case Object(fields) => fields != map[]
  }

  /** An HTTP reply: its status code and its body, `None` when the body is not JSON. */
  datatype Response = Response(status: int, body: Option<Value>)

  /** The JSON body of the PUT request. */
  datatype Payload = Payload(message: string, content: string, branch: string, sha: Option<Value>)

  /** Why reading the marker raised: `.json()` on a non-JSON body, or `.get`
      on a JSON value that is not an object. */
  datatype ShaError = GetBodyNotJson | GetBodyNotObject

  /** What the script reports after the PUT. `ReportRaised` is the failure
      branch whose own `res.json()` raised on a non-JSON body. */
  datatype Report = Uploaded | UploadFailed(status: int, detail: Value) | ReportRaised

  /** `NotSent`: the marker lookup raised before any PUT; `Sent`: the PUT was
      issued with `payload` and the script reported `report`. */
  datatype UploadResult = NotSent(error: ShaError) | Sent(payload: Payload, report: Report)

  /** The destination holds a file with a marker the script can use: the GET
      succeeded and its JSON object has a truthy "sha". */
  predicate HasPriorVersion(get: Response) {
    && get.status == 200
    && get.body.Some?
    && get.body.value.Object?
    && "sha" in get.body.value.fields
    && Truthy(get.body.value.fields["sha"])
  }

  /** The GET reply is one the marker lookup can read without raising. */
  predicate Readable(get: Response) {
    get.status != 200 || (get.body.Some? && get.body.value.Object?)
  }

  /** Line 66: the marker, or `None` (here `Null`) for any status but 200.
      `dict.get` gives `None` for a missing key as for a JSON null. */
  function PriorSha(get: Response): (r: Result<Value, ShaError>)
    ensures r.Ok? <==> Readable(get)
    ensures r.Ok? ==> (Truthy(r.value) <==> HasPriorVersion(get))
    ensures HasPriorVersion(get) ==> r == Ok(get.body.value.fields["sha"])
  {
    if get.status != 200 then Ok(Null)
    else match get.body
      case None => Err(GetBodyNotJson)
      case Some(Object(fields)) => Ok(if "sha" in fields then fields["sha"] else Null)
      case Some(_) => Err(GetBodyNotObject)
  }

  /** Lines 67-73: the payload always names the branch "main" and carries the
      marker exactly when it is truthy. */
  function BuildPayload(message: string, content: string, sha: Value): (p: Payload)
    ensures p.branch == "main" && p.message == message && p.content == content
    ensures p.sha.Some? <==> Truthy(sha)
    ensures p.sha.Some? ==> p.sha.value == sha
  {
    var payload := Payload(message, content, BRANCH, None);
    if Truthy(sha) then payload.(sha := Some(sha)) else payload
  }

  /** Line 75: the statuses the script treats as a successful upload. */
  predicate PutSucceeded(status: int) {
    status in {200, 201}
  }

  /** Lines 74-78: the report after the PUT. */
  function ReportPut(put: Response): (r: Report)
    ensures r.Uploaded? <==> put.status == 200 || put.status == 201
    ensures r.UploadFailed? ==> r.status == put.status && put.body == Some(r.detail)
    ensures r.ReportRaised? <==> !PutSucceeded(put.status) && put.body.None?
  {
    if PutSucceeded(put.status) then Uploaded
    else match put.body
      case None => ReportRaised
      case Some(detail) => UploadFailed(put.status, detail)
  }

  /** `upload_chart` with `content` the base64 text of the rendered file and
      `message` the time-stamped commit message: a PUT is issued unless the
      marker lookup raised; it is an update carrying the marker exactly when
      the destination has a prior version, and a create otherwise. */
  function UploadChart(content: string, message: string, get: Response, put: Response): (r: UploadResult)
    ensures r.Sent? <==> Readable(get)
    ensures r.NotSent? ==> get.status == 200
    ensures r.Sent? ==> r.payload.branch == "main" && r.payload.content == content
                        && r.payload.message == message
    ensures r.Sent? ==> (r.payload.sha.Some? <==> HasPriorVersion(get))
    ensures r.Sent? && HasPriorVersion(get) ==> r.payload.sha == Some(get.body.value.fields["sha"])
    ensures r.Sent? ==> (r.report.Uploaded? <==> PutSucceeded(put.status))
  {
    match PriorSha(get)
    case Err(e) => NotSent(e)
    case Ok(sha) => Sent(BuildPayload(message, content, sha), ReportPut(put))
  }

  /** No file at the destination (any non-200 GET): the PUT is a create. */
  lemma CreateWhenAbsent(content: string, message: string, get: Response, put: Response)
    requires get.status != 200
    ensures UploadChart(content, message, get, put).Sent?
    ensures UploadChart(content, message, get, put).payload.sha == None
  {
  }

  /** An existing file with a non-empty string marker: the PUT is an update
      carrying that marker. */
  lemma UpdateCarriesMarker(content: string, message: string, marker: string,
                            fields: map<string, Value>, put: Response)
    requires "sha" in fields && fields["sha"] == Str(marker) && marker != ""
    ensures UploadChart(content, message, Response(200, Some(Object(fields))), put).Sent?
    ensures UploadChart(content, message, Response(200, Some(Object(fields))), put).payload.sha
            == Some(Str(marker))
  {
  }

  /** A failed upload is reported without raising whenever the PUT reply is
      JSON; every non-success status counts as a failure. */
  lemma FailureIsReported(content: string, message: string, get: Response, put: Response)
    requires Readable(get)
    requires !PutSucceeded(put.status) && put.body.Some?
    ensures UploadChart(content, message, get, put).report == UploadFailed(put.status, put.body.value)
  {
  }
}
