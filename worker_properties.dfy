/**
  What the worker's handler promises. The routing, the upload record and the
  extension are stated against references that do not share the handler's
  code: the route table as a map, a parser that reads a generated filename
  back into its parts, and a characterisation of the extension as the one
  dot-led suffix with no further dot. FilenameShape, UrlEndsWithFilename and
  the fallback and if-and-only-if lemmas are stated over the handler's own
  definitions and proved by unfolding them.
 */
module WorkerProperties {
  import opened JsString
  import opened Worker

  datatype Option<T> = None | Some(value: T)

  /** The GET routes as a table from pathname to page. */
  const RouteTable: map<string, Page> := map[
    "/" := Home,
    "/error/404" := NotFound,
    "/error/500" := Internal,
    "/error/502" := BadGateway,
    "/upload" := Upload,
    "/test" := Test
  ]

  function Get(pathname: string, search: string): Request {
    Request("GET", pathname, search, NoFile)
  }

  predicate IsUploadRequest(req: Request) {
    req.verb == "POST" && req.pathname == "/api/upload"
  }

  /** A GET is answered from the route table, with the 404 page for any path not in it. */
  lemma GetFollowsRouteTable(pathname: string, search: string, body: Body, timestamp: nat, randomId: nat)
    requires ValidEntropy(timestamp, randomId)
    ensures Dispatch(Request("GET", pathname, search, body), timestamp, randomId)
         == HtmlResponse(if pathname in RouteTable then RouteTable[pathname] else NotFound)
  {
  }

  /** The six known pages, each with its fixed status and as HTML. */
  lemma KnownGetPaths(search: string, timestamp: nat, randomId: nat)
    requires ValidEntropy(timestamp, randomId)
    ensures Dispatch(Get("/", search), timestamp, randomId) == Response(200, TextHtml, Html(Home))
    ensures Dispatch(Get("/error/404", search), timestamp, randomId) == Response(404, TextHtml, Html(NotFound))
    ensures Dispatch(Get("/error/500", search), timestamp, randomId) == Response(500, TextHtml, Html(Internal))
    ensures Dispatch(Get("/error/502", search), timestamp, randomId) == Response(502, TextHtml, Html(BadGateway))
    ensures Dispatch(Get("/upload", search), timestamp, randomId) == Response(200, TextHtml, Html(Upload))
    ensures Dispatch(Get("/test", search), timestamp, randomId) == Response(200, TextHtml, Html(Test))
  {
  }

  /** Each error-demonstration page answers with the status its path names. */
  lemma ErrorPathCarriesItsStatus(code: nat, search: string, timestamp: nat, randomId: nat)
    requires code == 404 || code == 500 || code == 502
    requires ValidEntropy(timestamp, randomId)
    ensures Dispatch(Get("/error/" + NatToDecimal(code), search), timestamp, randomId).status == code
  {
    var hundreds := code / 100;
    assert NatToDecimal(hundreds) == [DigitChar(hundreds)];
    assert NatToDecimal(code / 10) == NatToDecimal(hundreds) + [DigitChar(0)];
    assert NatToDecimal(code) == NatToDecimal(code / 10) + [DigitChar(code % 10)];
    var path := "/error/" + NatToDecimal(code);
    assert code == 404 ==> path == "/error/404";
    assert code == 500 ==> path == "/error/500";
    assert code == 502 ==> path == "/error/502";
  }

  /** Routing is by exact pathname: the query string never matters. */
  lemma SearchIgnored(req: Request, search: string, timestamp: nat, randomId: nat)
    requires ValidEntropy(timestamp, randomId)
    ensures Dispatch(req.(search := search), timestamp, randomId) == Dispatch(req, timestamp, randomId)
  {
  }

  /** Only the upload endpoint reads the body, and only it reads the clock and the random suffix. */
  lemma InputsIgnoredOutsideUpload(req: Request, body: Body, timestamp: nat, randomId: nat, timestamp': nat, randomId': nat)
    requires !IsUploadRequest(req)
    requires ValidEntropy(timestamp, randomId) && ValidEntropy(timestamp', randomId')
    ensures Dispatch(req.(body := body), timestamp', randomId') == Dispatch(req, timestamp, randomId)
  {
  }

  /** Anything that is neither a GET nor the upload POST gets the 404 page. */
  lemma OtherRequestsNotFound(req: Request, timestamp: nat, randomId: nat)
    requires req.verb != "GET" && !IsUploadRequest(req)
    requires ValidEntropy(timestamp, randomId)
    ensures Dispatch(req, timestamp, randomId) == Response(404, TextHtml, Html(NotFound))
  {
  }

  /** Status 404 comes from an unknown GET path, `/error/404`, or a method/path pair with no handler. */
  lemma NotFoundExactly(req: Request, timestamp: nat, randomId: nat)
    requires ValidEntropy(timestamp, randomId)
    ensures Dispatch(req, timestamp, randomId).status == 404
        <==> ((req.verb == "GET" && (req.pathname !in RouteTable || req.pathname == "/error/404"))
              || (req.verb != "GET" && !IsUploadRequest(req)))
  {
  }

  /** Status 400, a JSON error, exactly when the upload POST carries no usable `file` field. */
  lemma MissingFileExactly(req: Request, timestamp: nat, randomId: nat)
    requires ValidEntropy(timestamp, randomId)
    ensures var r := Dispatch(req, timestamp, randomId);
      (r.status == 400)
        <==> (IsUploadRequest(req) && (req.body == NoFile || req.body == TextField("")))
    ensures var r := Dispatch(req, timestamp, randomId);
      r.status == 400 ==> r.contentType == ApplicationJson && r.payload == ErrorJson(NoFileMessage)
  {
  }

  /**
    The internal-error page is served for `/error/500` and for an upload whose
    form cannot be read or whose `file` field is a non-empty string; nothing
    else reaches the catch.
   */
  lemma InternalErrorExactly(req: Request, timestamp: nat, randomId: nat)
    requires ValidEntropy(timestamp, randomId)
    ensures var r := Dispatch(req, timestamp, randomId);
      (r == Response(500, TextHtml, Html(Internal)))
        <==> ((req.verb == "GET" && req.pathname == "/error/500")
              || (IsUploadRequest(req) && (req.body == Malformed || (req.body.TextField? && req.body.value != ""))))
  {
  }

  /** The generated filename: `file-`, the timestamp, `-`, the random suffix, then the extension. */
  lemma FilenameShape(timestamp: nat, randomId: nat, ext: string)
    ensures var f := GeneratedFilename(timestamp, randomId, ext);
      |FilenamePrefix| + |ext| <= |f|
      && f[..|FilenamePrefix|] == FilenamePrefix
      && f[|f| - |ext|..] == ext
  {
  }

  /**
    A successful upload echoes the submitted name and size, and its filename
    reads back as the clock, the random suffix and the name's extension, with
    the URL under the public uploads directory.
   */
  lemma UploadSucceeds(search: string, name: string, size: nat, timestamp: nat, randomId: nat)
    requires ValidEntropy(timestamp, randomId)
    ensures var r := Dispatch(Request("POST", "/api/upload", search, File(name, size)), timestamp, randomId);
      r.status == 200 && r.contentType == ApplicationJson
      && r.payload.UploadJson?
      && r.payload.message == UploadSuccessMessage
      && r.payload.originalName == name
      && r.payload.size == size
      && ParseFilename(r.payload.filename) == Some(FilenameParts(timestamp, randomId, FileExtension(name)))
      && r.payload.url == "https://tool.etan.fun/uploads/" + r.payload.filename
  {
    var req := Request("POST", "/api/upload", search, File(name, size));
    assert IsUploadRequest(req);
    assert Handle(req, timestamp, randomId) == Returned(UploadEcho(name, size, timestamp, randomId));
    FilenameRoundTrip(timestamp, randomId, FileExtension(name));
  }

  /** An upload record is produced exactly for the upload POST with a file part. */
  lemma UploadRecordExactly(req: Request, timestamp: nat, randomId: nat)
    requires ValidEntropy(timestamp, randomId)
    ensures Dispatch(req, timestamp, randomId).payload.UploadJson? <==> IsUploadRequest(req) && req.body.File?
  {
  }

  /** The returned URL ends with `/uploads/` and the filename. */
  lemma UrlEndsWithFilename(filename: string)
    ensures var u := FileUrl(filename);
      var tail := "/uploads/" + filename;
      |tail| <= |u| && u[|u| - |tail|..] == tail
  {
    var u := FileUrl(filename);
    var tail := "/uploads/" + filename;
    assert UploadBase == "https://tool.etan.fun" + "/uploads/";
    assert u == "https://tool.etan.fun" + tail;
  }

  // ---- The extension rule, characterised without LastIndexOf ----

  /** `ext` is a suffix of `name` that starts at a `.` and contains no other `.`. */
  predicate IsDotSuffix(name: string, ext: string) {
    1 <= |ext| <= |name| && name[|name| - |ext|..] == ext && ext[0] == '.' && '.' !in ext[1..]
  }

  /** When the name has a dot, the extension is its one dot-led suffix without a further dot. */
  lemma {:induction false} ExtensionIsTheDotSuffix(name: string, ext: string)
    requires IsDotSuffix(name, ext)
    ensures FileExtension(name) == ext
  {
    var i := |name| - |ext|;
    assert name[i] == ext[0];
  }

  lemma ExtensionExamples()
    ensures FileExtension("photo.PNG") == ".PNG"
    ensures FileExtension("archive.tar.gz") == ".gz"
    ensures FileExtension(".bashrc") == ".bashrc"
    ensures FileExtension("noext") == ".bin"
    ensures FileExtension("") == ".bin"
  {
    ExtensionIsTheDotSuffix("photo.PNG", ".PNG");
    ExtensionIsTheDotSuffix("archive.tar.gz", ".gz");
    ExtensionIsTheDotSuffix(".bashrc", ".bashrc");
    assert '.' !in "noext";
  }

  // ---- Reading a generated filename back ----

  datatype FilenameParts = FilenameParts(timestamp: nat, randomId: nat, ext: string)

  /** The number written by the run of digits at the front of `s`, and what follows it. */
  function TakeNumber(s: string): Option<(nat, string)> {
    var k := DigitRun(s);
    if k == 0 then None else Some((DecimalValue(s[..k]), s[k..]))
  }

  lemma TakeNumberOfNumeral(n: nat, rest: string)
    requires rest == [] || !IsDigit(rest[0])
    ensures TakeNumber(NatToDecimal(n) + rest) == Some((n, rest))
  {
    var d := NatToDecimal(n);
    DigitRunOfNumeral(d, rest);
    assert (d + rest)[..|d|] == d;
    assert (d + rest)[|d|..] == rest;
    DecimalRoundTrip(n);
  }

  /** Splits `file-<digits>-<digits><.ext>` into its parts. */
  function ParseFilename(f: string): Option<FilenameParts> {
    if |f| < |FilenamePrefix| || f[..|FilenamePrefix|] != FilenamePrefix then None
    else ParseStamps(f[|FilenamePrefix|..])
  }

  /** Reads `<digits>-<digits><.ext>`. */
  function ParseStamps(s: string): Option<FilenameParts> {
    match TakeNumber(s)
    case None => None
    case Some((timestamp, afterTime)) =>
      if afterTime == [] || afterTime[0] != '-' then None
      else ParseRandomAndExtension(timestamp, afterTime[1..])
  }

  /** Reads `<digits><.ext>` once the timestamp is known. */
  function ParseRandomAndExtension(timestamp: nat, s: string): Option<FilenameParts> {
    match TakeNumber(s)
    case None => None
    case Some((randomId, ext)) =>
      if ext == [] || ext[0] != '.' then None
      else Some(FilenameParts(timestamp, randomId, ext))
  }

  lemma RandomAndExtensionRead(timestamp: nat, randomId: nat, ext: string)
    requires 1 <= |ext| && ext[0] == '.'
    ensures ParseRandomAndExtension(timestamp, NatToDecimal(randomId) + ext) == Some(FilenameParts(timestamp, randomId, ext))
  {
    TakeNumberOfNumeral(randomId, ext);
  }

  lemma StampsRead(timestamp: nat, randomId: nat, ext: string)
    requires 1 <= |ext| && ext[0] == '.'
    ensures ParseStamps(NatToDecimal(timestamp) + ("-" + (NatToDecimal(randomId) + ext)))
         == Some(FilenameParts(timestamp, randomId, ext))
  {
    var afterTime := "-" + (NatToDecimal(randomId) + ext);
    TakeNumberOfNumeral(timestamp, afterTime);
    assert afterTime[1..] == NatToDecimal(randomId) + ext;
    RandomAndExtensionRead(timestamp, randomId, ext);
  }

  /** Every generated filename reads back as the timestamp, random suffix and extension it was made from. */
  lemma {:induction false} FilenameRoundTrip(timestamp: nat, randomId: nat, ext: string)
    requires 1 <= |ext| && ext[0] == '.'
    ensures ParseFilename(GeneratedFilename(timestamp, randomId, ext)) == Some(FilenameParts(timestamp, randomId, ext))
  {
    var stamps := NatToDecimal(timestamp) + ("-" + (NatToDecimal(randomId) + ext));
    var f := GeneratedFilename(timestamp, randomId, ext);
    assert f == FilenamePrefix + stamps;
    assert f[..|FilenamePrefix|] == FilenamePrefix && f[|FilenamePrefix|..] == stamps;
    StampsRead(timestamp, randomId, ext);
  }

  /** Two uploads whose clock or random suffix differ get different filenames, whatever the files. */
  lemma DistinctEntropyDistinctFilenames(name: string, timestamp: nat, randomId: nat,
                                          name': string, timestamp': nat, randomId': nat)
    requires timestamp != timestamp' || randomId != randomId'
    ensures GeneratedFilename(timestamp, randomId, FileExtension(name))
         != GeneratedFilename(timestamp', randomId', FileExtension(name'))
  {
    FilenameRoundTrip(timestamp, randomId, FileExtension(name));
    FilenameRoundTrip(timestamp', randomId', FileExtension(name'));
  }
}
