# Debug website request handler (edge-runtime variant), in Dafny

The repository is a small diagnostic website: six static HTML pages (home,
three HTTP-error demonstrations, an upload form, a CDN test page) and one
upload-echo endpoint that accepts a file, stores nothing, and answers with a
JSON description containing a fabricated filename and public URL.

This project models the request handler of the edge-runtime variant,
`worker.js` (`fetch`, lines 5-102), as pure Dafny functions and proves what
it promises:

- `js_string.dfy` (module `JsString`): the JavaScript string behaviour the
  handler relies on. `LastIndexOf` is `String.prototype.lastIndexOf` for a
  one-character search string (-1 when absent). `NatToDecimal` is the
  decimal rendering of a non-negative integral Number (ECMAScript
  Number::toString, below 10^21). `DecimalValue` reads a numeral back.
- `worker.dfy` (module `Worker`): the request, body, response and page
  datatypes, the GET `switch` (`GetRoute`), the extension rule
  (`FileExtension`), the filename and URL concatenation, the upload branch
  (`HandleUpload`), the `try` block (`Handle`, which ends in `Returned` or
  `Threw`) and `Dispatch`, which catches `Threw` as the 500 page.
- `worker_properties.dfy` (module `WorkerProperties`): the properties. The
  routing, the upload record and the extension are stated against references
  that do not share the handler's code. These are the route table as a `map`,
  a parser that reads a generated filename back into its timestamp, random
  suffix and extension, and a characterisation of the extension as the one
  dot-led suffix with no further dot. `FilenameShape`, `UrlEndsWithFilename`
  and the fallback and if-and-only-if lemmas are stated over the handler's
  own definitions and proved by unfolding them.

Inputs the runtime supplies are explicit. The clock (`Date.now()`) and the
random suffix (`Math.round(Math.random() * 1E9)`) are `nat` parameters.
They are bounded by the largest ECMAScript time value (8.64 * 10^15 ms) and
by 10^9, so JavaScript prints both as plain decimal numerals. The result of
`await request.formData()` followed by `.get('file')` is the request's
`body`:

- `Malformed`: `formData()` throws.
- `NoFile`: there is no `file` field.
- `TextField(value)`: the `file` field is a plain text field.
- `File(name, size)`: the `file` field is a file part.

The pages are opaque tags.

Three behaviours of the code are easy to miss:

- The `file` field may be a text field rather than a file. An empty string
  is falsy, so it is rejected with 400 like a missing field. A non-empty
  string passes the `!file` test. It has no `name`, so `lastIndexOf` is
  called on `undefined` and throws. The catch then answers 500 with the
  internal-error page.
- The page getters never throw. The only paths into the catch are the two
  upload cases above (`InternalErrorExactly`).
- Any method other than GET reaches the 404 fallback unless it is POST to
  `/api/upload`. This includes HEAD.

## Model

| member | source | states |
|---|---|---|
| JsString.LastIndexOf | worker.js:72-73 | the result is -1 exactly when the character is absent; otherwise it is a position holding the character with no occurrence after it |
| JsString.NatToDecimal | worker.js:74 | the numeral for a number is non-empty, all digits, and starts with `0` only for zero |
| JsString.DecimalRoundTrip | worker.js:74 | reading the numeral of n gives back n, so the concatenated numbers are recoverable |
| Worker.FileExtension | worker.js:71-73 | if the name has a `.`, the extension is a suffix of the name that starts with `.` and has no other `.`; otherwise it is exactly `.bin` |
| Worker.Dispatch | worker.js:5-102 | every response is well formed: a page with its own status as `text/html`, the error JSON with 400, or the upload JSON with 200 whose url is the upload base plus the filename; the status is one of 200, 400, 404, 500, 502 |
| WorkerProperties.GetFollowsRouteTable | worker.js:10-53 | a GET is answered with the page the route table gives the exact pathname, or with the 404 page for any pathname not in it |
| WorkerProperties.KnownGetPaths | worker.js:11-46 | `/`→200, `/error/404`→404, `/error/500`→500, `/error/502`→502, `/upload`→200 and `/test`→200, each as `text/html` with its page |
| WorkerProperties.ErrorPathCarriesItsStatus | worker.js:17-34 | GET `/error/<code>` answers with status `<code>` for 404, 500 and 502, whatever the query string |
| WorkerProperties.SearchIgnored | worker.js:6 | the query string never changes the response |
| WorkerProperties.InputsIgnoredOutsideUpload | worker.js:54-88 | outside POST `/api/upload`, neither the body nor the clock nor the random suffix changes the response |
| WorkerProperties.OtherRequestsNotFound | worker.js:89-94 | a request that is neither GET nor POST to `/api/upload` gets 404, `text/html` and the not-found page |
| WorkerProperties.NotFoundExactly | worker.js:10-94 | status 404 occurs exactly for a GET to `/error/404` or to a path outside the table, and for a method/path pair with no handler |
| WorkerProperties.MissingFileExactly | worker.js:57-64 | status 400 occurs exactly for POST `/api/upload` whose `file` field is missing or an empty string, and it carries `application/json` and only the error message |
| WorkerProperties.InternalErrorExactly | worker.js:95-101 | the 500 internal-error page is served exactly for GET `/error/500` and for an upload whose form cannot be read or whose `file` field is a non-empty string |
| WorkerProperties.UploadSucceeds | worker.js:77-88 | a file upload answers 200 with `application/json`, the fixed success message, the submitted name as `originalName` and the submitted size; its filename parses back to the timestamp, the random suffix and the name's extension, and its url is `https://tool.etan.fun/uploads/` followed by that filename |
| WorkerProperties.UploadRecordExactly | worker.js:54-88 | an upload record is returned exactly for POST `/api/upload` whose `file` field is a file part |
| WorkerProperties.FilenameShape | worker.js:74 | the generated filename starts with `file-` and ends with the extension |
| WorkerProperties.UrlEndsWithFilename | worker.js:75 | the URL ends with `/uploads/` followed by the filename |
| WorkerProperties.ExtensionIsTheDotSuffix | worker.js:72-73 | any suffix of the name that starts with `.` and has no further `.` is the extraction's result, so the rule picks out exactly that suffix |
| WorkerProperties.ExtensionExamples | worker.js:72-73 | `photo.PNG`→`.PNG` (no case folding), `archive.tar.gz`→`.gz`, `.bashrc`→`.bashrc`, `noext` and the empty name→`.bin` |
| WorkerProperties.FilenameRoundTrip | worker.js:74 | a generated filename parses back to the timestamp, random suffix and extension it was built from, in that order |
| WorkerProperties.DistinctEntropyDistinctFilenames | worker.js:68-74 | two uploads whose timestamps or random suffixes differ get different filenames, whatever the submitted names |

## Left out

- The HTML of the six pages (worker.js:106-537): literal markup and embedded browser scripts; the model carries an opaque page tag.
- server.js, the long-lived-process variant: its routing is Express middleware, and its naming and saving is multer disk storage with Node's `path.extname`. None of these library semantics are visible here.
- test.js: an HTTP client that logs status codes and asserts nothing.
- `Date.now()` and `Math.random()`: the clock and the random source are parameters, with the rounding of `Math.random() * 1E9` reduced to its range 0 .. 10^9.
- Dispatch: takes the clock as a `nat`, so it does not cover a clock set before 1970, which `Date.now()` could in principle return as a negative number.
- URL parsing (`new URL(request.url)`), multipart parsing (`request.formData()`), `JSON.stringify` and `console.error`: runtime calls and I/O. Their results are the request fields and the payload datatype.
- The runtime's upper-casing of standard method names in `Request`: the method is taken as the string the handler compares.
- JavaScript strings are UTF-16 code units and Dafny strings are sequences of Unicode scalar values. Positions differ for characters outside the Basic Multilingual Plane, but the extracted suffix is the same because `.` is a single code unit.
- Async/await and the `env` and `ctx` parameters: there is no concurrency or shared state.
