/**
  The request handler of the edge-runtime variant of the debug website
  (worker.js, `fetch`): an exact-string GET route table, one POST upload-echo
  endpoint that fabricates a filename and a public URL for the submitted file,
  a not-found fallback for everything else, and one catch that turns any
  exception into the internal-error page.

  The handler is a pure function of the request. The runtime's inputs are
  explicit: the clock (`Date.now()`) and the random suffix
  (`Math.round(Math.random() * 1E9)`) are parameters, and the outcome of
  `request.formData().get('file')` is the request's `body`. The six HTML
  documents are opaque page tags.
 */
module Worker {
  import opened JsString

  /** The six static HTML documents the worker serves. */
  datatype Page = Home | NotFound | Internal | BadGateway | Upload | Test

  datatype Payload =
    | Html(page: Page)
    | ErrorJson(error: string)
    | UploadJson(message: string, filename: string, url: string, originalName: string, size: nat)

  datatype Response = Response(status: nat, contentType: string, payload: Payload)

  /** What `await request.formData()` followed by `.get('file')` produces. */
  datatype Body =
    | Malformed                     // formData() rejects: the body is not a form
    | NoFile                        // no field named `file`: get returns null
    | TextField(value: string)      // `file` is a plain text field: get returns a string
    | File(name: string, size: nat) // `file` is a file part: get returns a File

  /** The parts of a request the handler reads: its method (`verb`), the URL's pathname and query string (`search`, parsed and never used), and the form body. */
  datatype Request = Request(verb: string, pathname: string, search: string, body: Body)

  /** How the body of the `try` ends: with a response, or with an exception. */
  datatype Outcome = Returned(response: Response) | Threw

  const TextHtml := "text/html"
  const ApplicationJson := "application/json"

  const NoFileMessage := "没有选择文件"
  const UploadSuccessMessage := "文件上传成功"

  const FilenamePrefix := "file-"
  const DefaultExtension := ".bin"
  const UploadBase := "https://tool.etan.fun/uploads/"

  /** `Math.round(Math.random() * 1E9)` lies in 0 .. 10^9. */
  const MaxRandomId: nat := 1_000_000_000
  /** The largest time value an ECMAScript Date can hold, in milliseconds. */
  const MaxTimeValue: nat := 8_640_000_000_000_000

  /**
    The range of the clock and of the random suffix. Both stay below 10^21, so
    JavaScript renders them as plain decimal numerals, which is what
    NatToDecimal produces.
   */
  predicate ValidEntropy(timestamp: nat, randomId: nat) {
    timestamp <= MaxTimeValue && randomId <= MaxRandomId
  }

  /** The status each page is always served with. */
  function PageStatus(p: Page): nat {
    match p
    case Home => 200
    case NotFound => 404
    case Internal => 500
    case BadGateway => 502
    case Upload => 200
    case Test => 200
  }

  function HtmlResponse(p: Page): Response {
    Response(PageStatus(p), TextHtml, Html(p))
  }

  /** The GET `switch` on the pathname; an unknown path gets the 404 page. */
  function GetRoute(pathname: string): Page {
    match pathname
    case "/" => Home
    case "/error/404" => NotFound
    case "/error/500" => Internal
    case "/error/502" => BadGateway
    case "/upload" => Upload
    case "/test" => Test
    case _ => NotFound
  }

  /** The suffix of `fileName` from its last `.`, or `.bin` when it has none. */
  function FileExtension(fileName: string): (ext: string)
    ensures 1 <= |ext| && ext[0] == '.'
    ensures '.' !in ext[1..]
    ensures '.' in fileName ==> |ext| <= |fileName| && fileName == fileName[..|fileName| - |ext|] + ext
    ensures '.' !in fileName ==> ext == DefaultExtension
  {
    var dot := LastIndexOf(fileName, '.');
    if dot != -1 then fileName[dot..] else DefaultExtension
  }

  function GeneratedFilename(timestamp: nat, randomId: nat, ext: string): string {
    FilenamePrefix + NatToDecimal(timestamp) + "-" + NatToDecimal(randomId) + ext
  }

  function FileUrl(filename: string): string {
    UploadBase + filename
  }

  function UploadEcho(fileName: string, size: nat, timestamp: nat, randomId: nat): Response {
    var filename := GeneratedFilename(timestamp, randomId, FileExtension(fileName));
    Response(200, ApplicationJson,
      UploadJson(UploadSuccessMessage, filename, FileUrl(filename), fileName, size))
  }

  function MissingFile(): Response {
    Response(400, ApplicationJson, ErrorJson(NoFileMessage))
  }

  /** The POST /api/upload branch. */
  function HandleUpload(body: Body, timestamp: nat, randomId: nat): Outcome {
    match body
    case Malformed => Threw
    case NoFile => Returned(MissingFile())
    // An empty string is falsy, so it is rejected like a missing field; any
    // other string passes the check, has no `name`, and `lastIndexOf` on
    // the resulting `undefined` throws.
    case TextField(value) => if value == "" then Returned(MissingFile()) else Threw
    case File(name, size) => Returned(UploadEcho(name, size, timestamp, randomId))
  }

  /** The body of the `try` block. */
  function Handle(req: Request, timestamp: nat, randomId: nat): Outcome {
    if req.verb == "GET" then Returned(HtmlResponse(GetRoute(req.pathname)))
    else if req.verb == "POST" && req.pathname == "/api/upload" then HandleUpload(req.body, timestamp, randomId)
    else Returned(HtmlResponse(NotFound))
  }

  /** A response whose status and content type agree with what it carries. */
  predicate WellFormed(r: Response) {
    match r.payload
    case Html(p) => r.status == PageStatus(p) && r.contentType == TextHtml
    case ErrorJson(_) => r.status == 400 && r.contentType == ApplicationJson
    case UploadJson(_, filename, url, _, _) =>
      r.status == 200 && r.contentType == ApplicationJson && url == UploadBase + filename
  }

  /** The `fetch` handler: the `try` block, with any exception caught as the 500 page. */
  function Dispatch(req: Request, timestamp: nat, randomId: nat): (r: Response)
    requires ValidEntropy(timestamp, randomId)
    ensures WellFormed(r)
    ensures r.status in {200, 400, 404, 500, 502}
    ensures r.contentType == TextHtml || r.contentType == ApplicationJson
  {
    match Handle(req, timestamp, randomId)
    case Returned(response) => response
    case Threw => HtmlResponse(Internal)
  }
}
