# Moesif outgoing-call capture, modelled in Dafny

`MoesifCaptureOutgoing` records outgoing HTTP calls made through `Curl::Easy`
(curb) or `Net::HTTP`. It turns each call into a Moesif event and sends a
sampled share of those events to the Moesif collection API.

The model covers these parts of the library:

- **Adapters** (`adapters.dfy`). `AbstractAdapter` with its request and
  response wrappers, and what the curb and Net::HTTP adapters feed into them:
  - the URL;
  - the verb, taken from the wrapped method name or from the native request;
  - the headers. Curb request headers come from `curl.headers`. Curb response
    headers are parsed out of the raw header block. Net::HTTP headers are
    taken as given;
  - the status code. For Net::HTTP it is `to_i` of the code text, or a status
    looked up by reason phrase when the code is a Symbol. It is memoised in
    `@code`;
  - the response body.
- **Raw header parsing** (`raw_headers.dfy`). curb's `Response#headers` goes
  through these steps:
  1. It drops the start line.
  2. It chomps one trailing CRLF.
  3. It cuts the rest into CRLF lines.
  4. It splits each line at its first `:`.
  5. It strips spaces and tabs from the value.
  6. It buckets the values under the first-seen spelling of a name that
     matches case-insensitively.
  7. It joins each bucket with `", "`.

  The model defines this as a function (`ResponseHeaders`). The loop the Ruby
  code runs is the method `ParseResponseHeaders`, which is proved equal to
  that function.
- **Body codec** (`body_codec.dfy`). `body?`, the memoised `event_model_body`
  and `event_model_body_transfer_encoding`:
  - a body that parses as JSON becomes the parsed value;
  - any other body becomes its Base64 text, with transfer encoding `"base64"`.

  The wrapper's instance variables are the fields of the class `BodyMemo`.
- **The pipeline** (`capture.dfy`). The module-level state set up by
  `start_capture_outgoing`, and `send_moesif_event`. In order,
  `send_moesif_event`:
  1. checks for self traffic;
  2. builds the request and response models;
  3. calls the four enrichment hooks (metadata, user, company, session), in
     order;
  4. calls the skip hook, then the mask hook;
  5. draws a random number;
  6. computes the sampling percentage and the weight;
  7. calls `create_event`;
  8. refreshes the configuration when the reply's etag has changed;
  9. handles errors in the rescue clauses.

  Also here: the instrumented calls (curb's wrapped `http_post` and `perform`,
  and the replaced `Net::HTTP#request`). Each hands the finished call to the
  pipeline and returns the native result. `MoesifCaptureOutgoing.call` only
  forwards to `send_moesif_event`, so the instrumented calls go to
  `SendMoesifEvent` directly.

The state `start_capture_outgoing` keeps is the class `CaptureState`. The
options hash becomes an `Options` value. Several things are passed in as
values or functions instead:

- the collection API, the configuration service and its rule engine;
- the random draw and the clock;
- `JSON.parse` and `Base64.encode64`;
- `Rack::Utils::HTTP_STATUS_CODES`;
- the user hooks.

An exception that escapes `send_moesif_event` is the outcome `Raised`. It
propagates into the instrumented call, which then raises instead of returning
its result.

Some behaviours of the code are easy to miss:

- A curb response whose raw header block is empty, or has a field line
  without `:`, makes the header parse call a method on nil. That exception
  escapes the capture and the instrumented call. A header block holding an
  interim `100 Continue` response followed by a blank line and the final
  one has two such lines (the blank line and the second start line), so the
  capture raises there.
- The refresh condition compares the clock with `@last_updated_time`. That
  variable is set once at start-up and never again. So the 300-second wait is
  counted from start-up, not from the last refresh.
- On a JSON body the transfer encoding is left unset (nil), not `"none"`.
- `application_id` is checked for Ruby truthiness, so an empty string is
  accepted.

## Model

| member | source | states |
|---|---|---|
| Text.Lower | moesif_capture_outgoing/httplog/adapters/abstract_adapter.rb:100 | `downcase` keeps the length of the text |
| Text.LowerAt | moesif_capture_outgoing/httplog/adapters/abstract_adapter.rb:100 | `downcase` maps each character to its ASCII lower case |
| Text.LowerAppend | moesif_capture_outgoing/httplog/adapters/abstract_adapter.rb:100 | lower-casing two texts joined is joining their lower-cased forms |
| Text.Upper | moesif_capture_outgoing/httplog/adapters/abstract_adapter.rb:45 | `upcase` keeps the length and maps each character to its ASCII upper case |
| Text.Join | moesif_capture_outgoing/httplog/adapters/curb_adapter.rb:113 | joining no parts gives "" and joining one part gives that part, with no separator |
| Text.StripBlanksSpec | moesif_capture_outgoing/httplog/adapters/curb_adapter.rb:104 | the value pattern cuts off only spaces and tabs, and all of them: the result is a slice with only blanks around it, and it neither starts nor ends with one |
| Text.SplitFirst | moesif_capture_outgoing/httplog/adapters/curb_adapter.rb:101 | `split(sep, 2)` succeeds exactly when the separator occurs; the name holds no separator and name + separator + rest is the line |
| Text.FirstLine | moesif_capture_outgoing/httplog/adapters/curb_adapter.rb:64 | the `$` anchor stops the value at the first line feed: the result holds no line feed and is the whole text or the part before its first line feed |
| RawHeaders.HeaderSection | moesif_capture_outgoing/httplog/adapters/curb_adapter.rb:95 | nil exactly for an empty block; otherwise everything after a start line that holds no CRLF, or the whole block when it has no CRLF |
| RawHeaders.Chomp | moesif_capture_outgoing/httplog/adapters/curb_adapter.rb:96 | exactly one trailing CRLF is removed, and only if present |
| RawHeaders.LinesRoundTrip | moesif_capture_outgoing/httplog/adapters/curb_adapter.rb:97 | joining the lines with CRLF restores the text, less one trailing CRLF |
| RawHeaders.LinesHaveNoCrlf | moesif_capture_outgoing/httplog/adapters/curb_adapter.rb:97 | no line holds a CRLF |
| RawHeaders.ParseLine | moesif_capture_outgoing/httplog/adapters/curb_adapter.rb:101-104 | a line yields a pair exactly when it contains ':' |
| RawHeaders.ParseLineSpec | moesif_capture_outgoing/httplog/adapters/curb_adapter.rb:101-104 | the line splits at its first ':' only; the name is kept verbatim; the value is the stripped text after the colon, up to a line feed |
| RawHeaders.ParsePairsOk | moesif_capture_outgoing/httplog/adapters/curb_adapter.rb:99-104 | the lines parse exactly when every line has a ':', and then each line yields its own pair, in order |
| RawHeaders.AddValue | moesif_capture_outgoing/httplog/adapters/curb_adapter.rb:107-109 | one step of the fold: the value goes to the bucket of the first key equal ignoring case, or to a new bucket at the end, exactly as `Insert` |
| RawHeaders.ParsePairsErr | moesif_capture_outgoing/httplog/adapters/curb_adapter.rb:99-104 | a failed parse names the first line without ':' |
| RawHeaders.FirstMatch | moesif_capture_outgoing/httplog/adapters/curb_adapter.rb:107 | the key found is the first that equals the name ignoring case; none is found only when no key does |
| RawHeaders.FindKey | moesif_capture_outgoing/httplog/adapters/curb_adapter.rb:107 | the linear key search returns the first key equal to the name ignoring case |
| RawHeaders.BucketsSummarise | moesif_capture_outgoing/httplog/adapters/curb_adapter.rb:100-109 | the fold gives keys unique ignoring case; each key holds all values of its name in order; every line is accounted for; keys are spelled as first seen and ordered by first appearance |
| RawHeaders.Render | moesif_capture_outgoing/httplog/adapters/curb_adapter.rb:110-117 | each key keeps its place and its values are joined with ", " |
| RawHeaders.JoinBuckets | moesif_capture_outgoing/httplog/adapters/curb_adapter.rb:110-117 | the `transform_values` loop produces exactly `Render` of the buckets |
| RawHeaders.ResponseHeadersFail | moesif_capture_outgoing/httplog/adapters/curb_adapter.rb:88-118 | the parse fails exactly on an empty block or on a field line without ':' |
| RawHeaders.ResponseHeadersFields | moesif_capture_outgoing/httplog/adapters/curb_adapter.rb:88-118 | names are unique ignoring case; each value is the ", " join of that name's values in order; each name is spelled as on its first line; names follow first appearance; no line is lost |
| RawHeaders.ParseResponseHeaders | moesif_capture_outgoing/httplog/adapters/curb_adapter.rb:88-118 | the loop that splits, chomps, buckets and joins computes the reference `ResponseHeaders` of the raw block, failure included |
| BodyCodec.HasBody | moesif_capture_outgoing/httplog/adapters/abstract_adapter.rb:18-20 | `body?` is false for a nil body and for an empty one, and true for any non-empty text |
| BodyCodec.EncodingMatchesBody | moesif_capture_outgoing/httplog/adapters/abstract_adapter.rb:22-33 | the encoding is "base64" exactly when the body is Base64 text, which is the encoding of the raw body; it is unset exactly when the body parses, and then the event body is the parsed value |
| BodyCodec.BodyMemo.EventModelBody | moesif_capture_outgoing/httplog/adapters/abstract_adapter.rb:22-33 | nil without a body, else the decoded body on every call; the encoding matches; the codec runs again only while the memo is empty (a parsed null or false is not kept) |
| BodyCodec.BodyMemo.EventModelBodyTransferEncoding | moesif_capture_outgoing/httplog/adapters/abstract_adapter.rb:35-39 | forces the decode, so the encoding is "base64" exactly when the body did not parse, and nil without a body |
| Adapters.CurlRequestHeaders | moesif_capture_outgoing/httplog/adapters/curb_adapter.rb:49-58 | names and their order are kept; String values are unchanged and Array values are joined with ", " |
| Adapters.VerbFromMethodName | moesif_capture_outgoing/httplog/adapters/curb_adapter.rb:151 | a verb is found exactly when the name is "http_" followed by one or more lower-case letters, and the name is "http_" + verb |
| Adapters.VerbRoundTrip | moesif_capture_outgoing/httplog/adapters/curb_adapter.rb:151 | every non-empty lower-case verb is read back from its wrapped method name |
| Adapters.CurbVerb | moesif_capture_outgoing/httplog/adapters/curb_adapter.rb:150-151 | a wrapped method hands over the verb its name spells after "http_", or nil (shown as "") when the name does not match; `perform` hands over "get" |
| Adapters.CurbVerbs | moesif_capture_outgoing/httplog/adapters/curb_adapter.rb:151-177 | the one wrapped method (`http_post`, from `REQUEST_METHODS`) reports "post" and `perform` reports "get"; the event carries "POST" and "GET" |
| Adapters.CapturedUrl | moesif_capture_outgoing/httplog/adapters/net_http_adapter.rb:88 | the URL is always "https://" followed by the address and the path, and nothing else |
| Adapters.CapturedUrlSelfTraffic | moesif_capture_outgoing/httplog/adapters/net_http_adapter.rb:88 | the captured URL is self traffic exactly when the address followed by the path is; the forced "https://" neither adds nor hides a "moesif" |
| Adapters.NetHttpVerb | moesif_capture_outgoing/httplog/adapters/net_http_adapter.rb:36-38 | upper-casing the already upper-cased Net::HTTP method changes nothing |
| Adapters.StatusTextRoundTrip | moesif_capture_outgoing/httplog/adapters/net_http_adapter.rb:49-53 | `to_i` reads every status number back from its decimal text |
| Adapters.StatusFromNameSpec | moesif_capture_outgoing/httplog/adapters/net_http_adapter.rb:65-67 | the lookup fails exactly when no reason phrase equals the name ignoring case; otherwise it gives the status of the first match |
| Adapters.UnderscoredNameFindsNothing | moesif_capture_outgoing/httplog/adapters/net_http_adapter.rb:66 | a symbol such as `:not_found` matches no phrase such as "Not Found", so the lookup finds nothing |
| Adapters.UnderscoredNamesFindNothing | moesif_capture_outgoing/httplog/adapters/net_http_adapter.rb:65-67 | with reason phrases spelled without '_', no name containing '_' finds a status |
| Adapters.NetHttpStatus | moesif_capture_outgoing/httplog/adapters/net_http_adapter.rb:49-53 | a text code gives its `to_i`; a symbol code fails exactly when no reason phrase matches |
| Adapters.ConcatAppend | moesif_capture_outgoing/httplog/http_log.rb:48 | the injected concatenation of chunks does not depend on where the body was cut into chunks |
| Adapters.ResponseBody | moesif_capture_outgoing/httplog/http_log.rb:46-50 | the body is read from a response that has one, or is the value itself; a String body is kept, a nil body gives "", a chunked body gives its chunks concatenated |
| Adapters.GetBodyAsWritten | moesif_capture_outgoing/httplog/adapters/net_http_adapter.rb:69-73 | as written, a String body yields only "true" or "false", and any other body raises |
| Adapters.GetBodyAsWrittenLosesBody | moesif_capture_outgoing/httplog/adapters/net_http_adapter.rb:70 | for the body `{"id":1}`, the line as written captures "false", while `get_response_body` keeps the body |
| Adapters.RequestHeaders | moesif_capture_outgoing/httplog/adapters/net_http_adapter.rb:32-34 | Net::HTTP request headers are taken as given; curb ones are `CurlRequestHeaders` of `curl.headers` |
| Adapters.ResponseHeaders | moesif_capture_outgoing/httplog/adapters/net_http_adapter.rb:59-61 | Net::HTTP response headers never fail; curb ones succeed exactly when the raw block parses, and are its parsed headers |
| Adapters.BodyFields | moesif_capture_outgoing/httplog/adapters/abstract_adapter.rb:48-51 | the body is present exactly with `log_body` and a body, and is its decode; the encoding is present exactly when that body did not parse, and is "base64" |
| Adapters.RequestWrapper.Model | moesif_capture_outgoing/httplog/adapters/abstract_adapter.rb:41-53 | the request model copies time, URL and headers, upper-cases the verb, has no api version, and has body fields only with `log_body` and a body |
| Adapters.RequestWrapper.ToEventRequestModel | moesif_capture_outgoing/httplog/adapters/abstract_adapter.rb:41-53 | building the model through the memoised body yields exactly `Model` and keeps the memo consistent |
| Adapters.ResponseWrapper.Status | moesif_capture_outgoing/httplog/adapters/curb_adapter.rb:73-75 | curb's status is `response_code` as is; the Net::HTTP status is `NetHttpStatus` |
| Adapters.ResponseWrapper.Code | moesif_capture_outgoing/httplog/adapters/net_http_adapter.rb:49-53 | `code` returns `Status`; a stored `@code` is kept; a converted status is stored |
| Adapters.ResponseWrapper.Model | moesif_capture_outgoing/httplog/adapters/abstract_adapter.rb:86-96 | the response model exists exactly when the status and the headers do; it then copies the time, status and headers and has the body fields as for requests |
| Adapters.ResponseWrapper.ToEventResponseModel | moesif_capture_outgoing/httplog/adapters/abstract_adapter.rb:86-96 | building the model yields exactly `Model`; when it raises, the body memo is untouched |
| Adapters.MarkerInAnyCase | moesif_capture_outgoing/httplog/adapters/abstract_adapter.rb:99-101 | a URL containing "moesif" in any mix of cases is self traffic |
| Adapters.MarkerFound | moesif_capture_outgoing/httplog/adapters/abstract_adapter.rb:99-101 | a URL counts as self traffic only where some stretch of it reads "moesif" once lower-cased |
| Adapters.Adapter.Curb | moesif_capture_outgoing/httplog/adapters/curb_adapter.rb:15-22 | the curb adapter's URL, verb and times are as given; request headers and body come from the handle; the response status is `response_code`; response headers are parsed from `header_str`; the hook arguments are the wrappers |
| Adapters.Adapter.EventModels | moesif_capture_outgoing/httplog/http_log.rb:59-60 | the request model is built first, then the response model; they are exactly the wrappers' `Model`s, and the body memos stay consistent |
| Adapters.Adapter.NetHttp | moesif_capture_outgoing/httplog/adapters/net_http_adapter.rb:97-101 | the Net::HTTP adapter upper-cases the method, takes the native headers, converts the code, and sets the response body to the joined body text; the hook arguments are the native objects |
| Capture.Assemble | moesif_capture_outgoing/httplog/http_log.rb:63-66 | the new event holds both models, has direction "Outgoing", and has nothing else set |
| Capture.EnrichFields | moesif_capture_outgoing/httplog/http_log.rb:68-98 | enrichment succeeds exactly when no configured enrichment hook raises; each field then holds its hook's result (or stays as it was when the hook is nil) and nothing else changes |
| Capture.EnrichFailure | moesif_capture_outgoing/httplog/http_log.rb:68-98 | a failure is caused by a raising enrichment hook; every earlier hook did not raise; that hook is the last one called |
| Capture.EnrichCalls | moesif_capture_outgoing/httplog/http_log.rb:68-98 | only configured hooks are called, in the fixed order; without a failure, exactly the configured enrichment hooks are called |
| Capture.Percentage | moesif_capture_outgoing/httplog/http_log.rb:122-130 | the sampling percentage is the computed one, or 100 when computing it raises |
| Capture.RefreshIntervalNotRestarted | moesif_capture_outgoing/httplog/http_log.rb:141-148 | after a delivery that attempted a refresh, the next sent capture, at the same clock reading or later, attempts one again whenever the reply's etag differs from the one held: a refresh does not restart the 300-second wait |
| Capture.ScreeningInOrder | moesif_capture_outgoing/httplog/http_log.rb:100-117 | the skip and mask hooks come after every enrichment hook, so the calls stay in order |
| Capture.DeliverStepDelivered | moesif_capture_outgoing/httplog/http_log.rb:119-174 | sampling and sending as defined step by step meet `Delivered`: the draw is kept; the event is sampled out exactly when the percentage does not exceed the draw and sent exactly when it does and the weighted event is accepted; a refresh is attempted exactly when due and replaces config, etag and download time together; a failed send warns exactly on 401 to 403 |
| Capture.DeliveredUnique | moesif_capture_outgoing/httplog/http_log.rb:119-174 | `Delivered` fixes the outcome and the new state: two deliveries of one event from one state with the same services agree |
| Capture.ScreenStepScreened | moesif_capture_outgoing/httplog/http_log.rb:100-179 | the skip and mask blocks meet `Screened`: skip is called when configured and its raising or returning true ends the capture; mask is called only past skip, its raising ends the capture, its result replaces the event; the state changes only once sampling is reached |
| Capture.ScreenedUnique | moesif_capture_outgoing/httplog/http_log.rb:100-179 | `Screened` fixes the outcome, the hooks called and the new state |
| Capture.ProcessStepProcessed | moesif_capture_outgoing/httplog/http_log.rb:63-179 | one capture of built models meets `Processed`: the hooks run in order and only when configured; a raising enrichment hook ends it with the state kept; otherwise the enriched event goes through `Screened` |
| Capture.ProcessedUnique | moesif_capture_outgoing/httplog/http_log.rb:63-179 | `Processed` fixes the outcome, the hooks called and the new state |
| Capture.CaptureState.Init | moesif_capture_outgoing/httplog/http_log.rb:9-28 | the initial state keeps the application id, the body flag and the hooks, has no configuration and no etag, percentage 100, no draw, and the start-up clock reading |
| Capture.CaptureState.Start | moesif_capture_outgoing/httplog/http_log.rb:9-40 | start-up fails exactly without an application id; `log_body_outgoing` defaults to true; the hooks are the options' hooks; the initial fetch installs config, etag and download time only when it yields a configuration; the state invariant holds |
| Capture.CaptureState.SendMoesifEvent | moesif_capture_outgoing/httplog/http_log.rb:52-181 | self traffic changes and calls nothing; a response model that raises ends the capture before any hook, with the state kept; otherwise outcome, hooks called and new state are `ProcessStep` of the adapter's models, which meets `Processed`; the state invariant holds |
| Capture.CaptureState.Process | moesif_capture_outgoing/httplog/http_log.rb:63-179 | outcome, hooks called and new state are `ProcessStep` of the models and the old state, which meets `Processed` |
| Capture.CaptureState.Screen | moesif_capture_outgoing/httplog/http_log.rb:100-179 | outcome, hooks called and new state are `ScreenStep` of the enriched event and the old state, which meets `Screened` |
| Capture.CaptureState.Deliver | moesif_capture_outgoing/httplog/http_log.rb:119-174 | outcome and new state are `DeliverStep` of the events and the old state, which meets `Delivered`; no hook is called |
| Capture.CurbCall | moesif_capture_outgoing/httplog/adapters/curb_adapter.rb:148-177 | the wrapped curb call builds the adapter from the handle with the entry point's verb and captures it as `SendMoesifEvent` does: self traffic exactly when the URL contains "moesif", calling and changing nothing; a model failure exactly when the raw header block fails to parse, with the state kept; otherwise outcome, hooks called and new state are `ProcessStep` of the adapter's models; the native result is returned unless the capture raised |
| Capture.NetHttpCall | moesif_capture_outgoing/httplog/adapters/net_http_adapter.rb:83-105 | the native response is returned unless the capture raised; nothing is built or captured unless `started?`; otherwise the adapter is built from the https URL, the request and the response, and captured as `SendMoesifEvent` does: self traffic calls and changes nothing, a model failure exactly when the status lookup fails keeps the state, and otherwise outcome, hooks called and new state are `ProcessStep` of the adapter's models |

## Left out

- Installing the patches (`included`, `define_original_alias`,
  `redefine_request_method_aliases`, the `Net::HTTP` hook's `alias_method`)
  is left out. These are Ruby metaprogramming with no behaviour of their own;
  the wrapped calls are modelled as `CurbCall` and `NetHttpCall`.
- The native transfer itself (`orig_http_post`, `orig_perform`,
  `request_without_moesif`) is left out. The instrumented calls receive its
  result as a value.
- Capturing before `start_capture_outgoing` has run is left out. A
  `CaptureState` exists only once start-up has succeeded.
- The debug `puts` lines are left out. So is the console warning on 401 to
  403, except as the `warned` flag of a failed send.
- Concurrency is left out: two threads racing on the refresh check are not
  modelled.
- Clock readings are whole seconds, and the ISO-8601 timestamps are opaque
  strings.
- Percentages are `real`, with no floating-point rounding.
- `JSON.parse`, `Base64.encode64`, `MoesifApi` (`create_event`),
  `AppConfig` (`get_config`, `parse_configuration`,
  `get_sampling_percentage`, `calculate_weight`),
  `Rack::Utils::HTTP_STATUS_CODES` and `Random.rand` are not part of this
  model. They are parameters, or the values of one `Services` record.
- Text.Lower: ASCII only, with no Unicode case mapping in `downcase`,
  `upcase` and `casecmp?`. Text.Upper is ASCII only too.
- Adapters.StringToI: reads white space, a sign and decimal digits. It does
  not accept the underscores between digits that Ruby's `to_i` allows.
- Adapters.CurlRequestHeaders: a value that is neither a String nor an Array
  is carried as its already converted text. Array elements are taken as
  strings, so nested arrays are not flattened.
- Capture.CaptureState.Screen: the mask hook is assumed to return an event.
  A mask result that is not an event, and fails later on `user_id`, is not
  modelled.
- Adapters.GetBodyAsWritten is kept only to show the bug. The adapter uses
  the corrected body, so the model does not let a capture raise on a nil
  or chunked Net::HTTP body (see Findings).
- Hook results are JSON values, not arbitrary Ruby objects. The skip hook
  yields the truthiness of its result.
- BodyCodec.JNumber: JSON numbers are integers. Fractions and exponents
  are not represented, because the model never looks inside a number.
- Adapters.Adapter.NetHttp: the response body is `get_response_body` of
  the response (`ResponseBody`), not `get_body` as written. So when
  `log_body` is on, the TypeError that `get_body` raises on a nil body,
  and the "true"/"false" text it yields for a String body, are not
  carried into the capture (see Findings).
- Capture.NetHttpCall: captures with the corrected body, as the adapter
  does. The raise on a nil or chunked body, which would escape the
  instrumented call when `log_body` is on, is not modelled.

## Findings

| source | as written | input that shows it | evidently intended | confidence | as-written member | corrected member |
|---|---|---|---|---|---|---|
| moesif_capture_outgoing/httplog/adapters/net_http_adapter.rb:70 | `respond_to? :body ? a : b` parses as `respond_to?(:body ? a : b)`, so the body becomes "true" or "false" (whether the response has a method named like the body text), and a nil body raises | a Net::HTTP response whose body is `{"id":1}` | the body text, chunks joined, as `get_response_body` computes it | high; not executed | Adapters.GetBodyAsWrittenLosesBody | Adapters.ResponseBody |
