/** The adapter layer: `AbstractAdapter` with its request and response
    halves, and what the curb (`Curl::Easy`) and Net::HTTP adapters feed
    into them. Both adapters end in the same shape: a request wrapper (url,
    verb, headers, body, time) and a response wrapper (status code, headers,
    body, time), each able to build its part of the event. */
module Adapters {

  import opened Wrappers
  import opened Text
  import opened BodyCodec
  import RawHeaders

  type Field = RawHeaders.Field

  // ----- curb: `Request#headers` -------------------------------------------

  /** A value of `curl.headers`: a String, an Array of strings, or anything
      else (carried here as its `to_s`). */
  datatype CurlHeaderValue = Text(s: string) | Many(parts: seq<string>) | Other(shown: string)

  function RenderCurlValue(v: CurlHeaderValue): string {
    match v
    case Text(s) => s
    case Many(parts) => Join(parts, RawHeaders.ValueSeparator)
    case Other(shown) => shown
  }

  /** `curl.headers.transform_values`: keys and their order unchanged, Array
      values joined with ", ", every other value turned into a String. */
  function CurlRequestHeaders(entries: seq<(string, CurlHeaderValue)>): (fs: seq<Field>)
    ensures |fs| == |entries|
    ensures forall i :: 0 <= i < |entries| ==> fs[i].name == entries[i].0
    ensures forall i :: 0 <= i < |entries| ==> entries[i].1.Text? ==> fs[i].value == entries[i].1.s
    ensures forall i :: 0 <= i < |entries| ==> entries[i].1.Many? ==>
      fs[i].value == Join(entries[i].1.parts, RawHeaders.ValueSeparator)
  {
    seq(|entries|, i requires 0 <= i < |entries| => RawHeaders.Field(entries[i].0, RenderCurlValue(entries[i].1)))
  }

  // ----- curb: the verb of a wrapped request method ------------------------

  const HttpPrefix: string := "http_"

  predicate LowerAlpha(s: string) {
    forall i :: 0 <= i < |s| ==> 'a' <= s[i] <= 'z'
  }

  /** `meth[/^http_(?<method>[a-z]+)$/, :method]` on a method name. */
  function VerbFromMethodName(name: string): (r: Option<string>)
    ensures r.Some? <==> |name| > |HttpPrefix| && name[..|HttpPrefix|] == HttpPrefix && LowerAlpha(name[|HttpPrefix|..])
    ensures r.Some? ==> name == HttpPrefix + r.value
  {
    if |name| > |HttpPrefix| && name[..|HttpPrefix|] == HttpPrefix && LowerAlpha(name[|HttpPrefix|..])
    then Some(name[|HttpPrefix|..])
    else None
  }

  /** Every lower-case verb survives the round trip through its wrapped
      method name. */
  lemma VerbRoundTrip(verb: string)
    requires verb != [] && LowerAlpha(verb)
    ensures VerbFromMethodName(HttpPrefix + verb) == Some(verb)
  {
    var name := HttpPrefix + verb;
    assert name[..|HttpPrefix|] == HttpPrefix && name[|HttpPrefix|..] == verb;
  }

  /** The one wrapped method, `http_post`, reports the verb "post"; `perform`
      passes "get". The event carries them upper-cased. */
  const PerformVerb: string := "get"

  /** The two instrumented curb entry points: a wrapped request method,
      called under its own name, and `perform`. */
  datatype CurbEntry = WrappedMethod(name: string) | Perform

  /** The `method` handed to the adapter: the name's verb for a wrapped
      method (nil, shown as "", when the name does not match), "get" for
      `perform`. */
  function CurbVerb(entry: CurbEntry): (verb: string)
    ensures entry.Perform? ==> verb == PerformVerb
    ensures entry.WrappedMethod? && VerbFromMethodName(entry.name).Some? ==> entry.name == HttpPrefix + verb
    ensures entry.WrappedMethod? && VerbFromMethodName(entry.name).None? ==> verb == []
  {
    match entry
    case Perform => PerformVerb
    case WrappedMethod(name) => if VerbFromMethodName(name).Some? then VerbFromMethodName(name).value else []
  }

  lemma CurbVerbs()
    ensures VerbFromMethodName("http_post") == Some("post")
    ensures CurbVerb(WrappedMethod("http_post")) == "post" && CurbVerb(Perform) == "get"
    ensures Upper(CurbVerb(WrappedMethod("http_post"))) == "POST" && Upper(CurbVerb(Perform)) == "GET"
  {
    VerbRoundTrip("post");
    assert HttpPrefix + "post" == "http_post";
  }

  // ----- Net::HTTP: URL, verb, status code ---------------------------------

  const HttpsPrefix: string := "https://"

  /** `"https://#{@address}#{request.path}"`: always https, whatever scheme
      the connection really uses; only the address and the path go in. */
  function CapturedUrl(address: string, path: string): (url: string)
    ensures |url| == |HttpsPrefix| + |address| + |path|
    ensures url[..|HttpsPrefix|] == HttpsPrefix && url[|HttpsPrefix|..] == address + path
  {
    HttpsPrefix + address + path
  }

  /** `Request#method` upper-cases the native method, and the event model
      upper-cases it again, which changes nothing. */
  lemma NetHttpVerb(native: string)
    ensures Upper(Upper(native)) == Upper(native)
  {
    UpperIdempotent(native);
  }

  predicate IsDigit(c: char) {
    '0' <= c <= '9'
  }

  predicate AllDigits(s: string) {
    forall i :: 0 <= i < |s| ==> IsDigit(s[i])
  }

  /** Ruby's `\s`: space, tab, line feed, vertical tab, form feed, return. */
  predicate RubySpace(c: char) {
    c == ' ' || '\t' <= c <= '\r'
  }

  function LeadingSpaces(s: string): (n: nat)
    ensures n <= |s|
  {
    if |s| > 0 && RubySpace(s[0]) then 1 + LeadingSpaces(s[1..]) else 0
  }

  /** The longest prefix of decimal digits. */
  function LeadingDigits(s: string): (d: string)
    ensures AllDigits(d) && |d| <= |s| && d == s[..|d|]
  {
    if |s| > 0 && IsDigit(s[0]) then [s[0]] + LeadingDigits(s[1..]) else []
  }

  function DigitsValue(ds: string): nat
    requires AllDigits(ds)
  {
    if ds == [] then 0 else 10 * DigitsValue(ds[..|ds| - 1]) + (ds[|ds| - 1] as int - '0' as int)
  }

  /** `String#to_i`: leading white space, an optional sign, then as many
      digits as there are; 0 when there are none. */
  function StringToI(s: string): int {
    var t := s[LeadingSpaces(s)..];
    if |t| > 0 && t[0] == '-' then -(DigitsValue(LeadingDigits(t[1..])) as int)
    else if |t| > 0 && t[0] == '+' then DigitsValue(LeadingDigits(t[1..]))
    else DigitsValue(LeadingDigits(t))
  }

  /** The decimal text of a status number, as Net::HTTP stores `code`. */
  function ShowNat(n: nat): (s: string)
    ensures s != [] && AllDigits(s)
  {
    if n < 10 then [('0' as int + n) as char]
    else ShowNat(n / 10) + [('0' as int + n % 10) as char]
  }

  lemma {:induction false} ShowNatValue(n: nat)
    ensures DigitsValue(ShowNat(n)) == n
  {
    if n >= 10 {
      ShowNatValue(n / 10);
      var s := ShowNat(n);
      assert s[..|s| - 1] == ShowNat(n / 10);
    }
  }

  lemma {:induction false} LeadingDigitsAll(s: string)
    requires AllDigits(s)
    ensures LeadingDigits(s) == s
  {
    if s != [] {
      LeadingDigitsAll(s[1..]);
    }
  }

  /** `to_i` reads back every status code Net::HTTP can hold as text. */
  lemma StatusTextRoundTrip(n: nat)
    ensures StringToI(ShowNat(n)) == n
  {
    var s := ShowNat(n);
    assert !RubySpace(s[0]) && s[0] != '-' && s[0] != '+';
    assert s[LeadingSpaces(s)..] == s;
    LeadingDigitsAll(s);
    ShowNatValue(n);
  }

  /** The `code` Net::HTTP hands over: its usual String, or a Symbol naming
      the status. */
  datatype RawCode = CodeText(text: string) | CodeSymbol(name: string)

  /** `Rack::Utils::HTTP_STATUS_CODES.detect { |_k, v| v.to_s.casecmp(name).zero? }.first`:
      the first status whose reason phrase equals the name ignoring case. */
  function StatusFromName(table: seq<(int, string)>, name: string): Option<int> {
    if table == [] then None
    else if SameIgnoringCase(table[0].1, name) then Some(table[0].0)
    else StatusFromName(table[1..], name)
  }

  /** The lookup finds a status exactly when some reason phrase matches, and
      then it is the status of the first match. */
  lemma {:induction false} StatusFromNameSpec(table: seq<(int, string)>, name: string)
    ensures StatusFromName(table, name).None? <==> forall i :: 0 <= i < |table| ==> !SameIgnoringCase(table[i].1, name)
    ensures StatusFromName(table, name).Some? ==>
      exists i :: 0 <= i < |table| && table[i].0 == StatusFromName(table, name).value && SameIgnoringCase(table[i].1, name)
        && forall j :: 0 <= j < i ==> !SameIgnoringCase(table[j].1, name)
  {
    if table != [] && !SameIgnoringCase(table[0].1, name) {
      StatusFromNameSpec(table[1..], name);
      assert forall i :: 1 <= i < |table| ==> table[i] == table[1..][i - 1];
      if StatusFromName(table, name).Some? {
        var k :| 0 <= k < |table[1..]| && table[1..][k].0 == StatusFromName(table, name).value
          && SameIgnoringCase(table[1..][k].1, name) && forall j :: 0 <= j < k ==> !SameIgnoringCase(table[1..][j].1, name);
        assert table[k + 1] == table[1..][k];
        assert forall j :: 0 <= j < k + 1 ==> !SameIgnoringCase(table[j].1, name) by {
          forall j | 0 <= j < k + 1 ensures !SameIgnoringCase(table[j].1, name) {
            if j > 0 { assert table[j] == table[1..][j - 1]; }
          }
        }
      }
    } else if table != [] {
      assert table[0].0 == StatusFromName(table, name).value;
    }
  }

  /** An illustration of `UnderscoredNamesFindNothing` below: the symbol
      `:not_found` never equals the reason phrase "Not Found", so it finds
      no status and the lookup calls `first` on nil. */
  lemma UnderscoredNameFindsNothing()
    ensures StatusFromName([(404, "Not Found")], "not_found").None?
  {
    assert !SameIgnoringCase("Not Found", "not_found") by {
      LowerAt("Not Found", 3);
      LowerAt("not_found", 3);
      assert Lower("Not Found")[3] != Lower("not_found")[3];
    }
  }

  /** More generally, with reason phrases spelled without '_' (as the
      status table's are), no symbol spelled with an '_' finds a status:
      lower-casing keeps '_' and makes no other character into one. */
  lemma UnderscoredNamesFindNothing(table: seq<(int, string)>, name: string)
    requires forall i :: 0 <= i < |table| ==> '_' !in table[i].1
    requires '_' in name
    ensures StatusFromName(table, name).None?
  {
    var k :| 0 <= k < |name| && name[k] == '_';
    forall i | 0 <= i < |table| ensures !SameIgnoringCase(table[i].1, name) {
      if SameIgnoringCase(table[i].1, name) {
        var phrase := table[i].1;
        LowerAt(name, k);
        assert |phrase| == |name| by {
          assert |Lower(phrase)| == |Lower(name)|;
        }
        LowerAt(phrase, k);
        assert false;
      }
    }
    StatusFromNameSpec(table, name);
  }

  datatype AdapterError =
    | HeaderParseFailed(cause: RawHeaders.HeaderError)
    | UnknownStatusName(name: string)   // `nil.first` raises NoMethodError
    | NoBodyObject                      // `respond_to?(nil)` raises TypeError

  /** `Response#code` of the Net::HTTP adapter: the integer status. */
  function NetHttpStatus(raw: RawCode, table: seq<(int, string)>): (r: Result<int, AdapterError>)
    ensures raw.CodeText? ==> r == Ok(StringToI(raw.text))
    ensures raw.CodeSymbol? ==> (r.Err? <==> StatusFromName(table, raw.name).None?)
  {
    match raw
    case CodeText(t) => Ok(StringToI(t))
    case CodeSymbol(n) =>
      match StatusFromName(table, n)
      case Some(c) => Ok(c)
      case None => Err(UnknownStatusName(n))
  }

  // ----- response bodies ---------------------------------------------------

  /** What `body` of a native response can be: nil, a String, or something
      enumerable that yields string chunks. */
  datatype BodyObject = NilBody | StringBody(s: string) | ChunkedBody(chunks: seq<string>)

  /** A response given to `get_response_body`: an object with a `body`
      method, or a bare body value. */
  datatype BodyHolder = Reader(body: BodyObject) | Bare(value: BodyObject)

  /** `chunks.inject('') { |i, a| i << a }`. */
  function Concat(chunks: seq<string>): string
    decreases |chunks|
  {
    if chunks == [] then [] else Concat(chunks[..|chunks| - 1]) + chunks[|chunks| - 1]
  }

  /** Concatenating chunk lists concatenates their texts, so the body does
      not depend on where it was cut into chunks. */
  lemma {:induction false} ConcatAppend(a: seq<string>, b: seq<string>)
    ensures Concat(a + b) == Concat(a) + Concat(b)
    decreases |b|
  {
    if b != [] {
      var b' := b[..|b| - 1];
      ConcatAppend(a, b');
      assert (a + b)[..|a + b| - 1] == a + b';
    } else {
      assert a + b == a;
    }
  }

  /** `get_response_body`: the body of the response (or the value itself),
      chunks joined, nil turned into "". */
  function ResponseBody(h: BodyHolder): (text: string)
    ensures (h.Reader? && h.body.StringBody?) ==> text == h.body.s
    ensures (h.Reader? && h.body.NilBody?) ==> text == []
    ensures (h.Reader? && h.body.ChunkedBody?) ==> text == Concat(h.body.chunks)
    ensures (h.Bare? && h.value.StringBody?) ==> text == h.value.s
    ensures (h.Bare? && h.value.NilBody?) ==> text == []
    ensures (h.Bare? && h.value.ChunkedBody?) ==> text == Concat(h.value.chunks)
  {
    var b := match h case Reader(body) => body case Bare(value) => value;
    match b
    case NilBody => []
    case StringBody(s) => s
    case ChunkedBody(chunks) => Concat(chunks)
  }

  /** `Response#get_body` of the Net::HTTP adapter as written:
      `respond_to? :body ? x : y` binds as `respond_to?(:body ? x : y)`, so
      it asks whether the response has a method NAMED like the body text
      and yields "true" or "false"; a nil body raises. `methods` are the
      method names the native response responds to. */
  function GetBodyAsWritten(body: BodyObject, methods: set<string>): (r: Result<string, AdapterError>)
    ensures body.StringBody? ==> r.Ok? && (r.value == "true" || r.value == "false")
    ensures !body.StringBody? ==> r.Err?
  {
    match body
    case StringBody(s) => Ok(if s in methods then "true" else "false")
    case _ => Err(NoBodyObject)
  }

  /** A JSON body that is not a method name is captured as "false" by the
      line as written, while `get_response_body` keeps it. */
  lemma GetBodyAsWrittenLosesBody(methods: set<string>)
    requires "{\"id\":1}" !in methods
    ensures GetBodyAsWritten(StringBody("{\"id\":1}"), methods) == Ok("false")
    ensures ResponseBody(Reader(StringBody("{\"id\":1}"))) == "{\"id\":1}"
  {
  }

  // ----- the request and response wrappers ---------------------------------

  /** Where a request's headers come from. */
  datatype RequestHeaderSource =
    | NetHttpRequestFields(fields: seq<Field>)                     // Net::HTTP `each_header`
    | CurlRequestFields(entries: seq<(string, CurlHeaderValue)>)   // `curl.headers`

  function RequestHeaders(src: RequestHeaderSource): (fs: seq<Field>)
    ensures src.NetHttpRequestFields? ==> fs == src.fields
    ensures src.CurlRequestFields? ==> fs == CurlRequestHeaders(src.entries)
  {
    match src
    case NetHttpRequestFields(fs) => fs
    case CurlRequestFields(entries) => CurlRequestHeaders(entries)
  }

  /** Where a response's headers come from. */
  datatype ResponseHeaderSource =
    | NetHttpResponseFields(fields: seq<Field>)   // Net::HTTP `each_header`
    | CurlHeaderBlock(block: string)              // `curl.header_str`

  /** The response headers; only the raw curb block can fail to parse. */
  function ResponseHeaders(src: ResponseHeaderSource): (r: Result<seq<Field>, AdapterError>)
    ensures src.NetHttpResponseFields? ==> r == Ok(src.fields)
    ensures src.CurlHeaderBlock? ==>
      (r.Ok? <==> RawHeaders.ResponseHeaders(src.block).Ok?) &&
      (r.Ok? ==> r.value == RawHeaders.ResponseHeaders(src.block).value)
  {
    match src
    case NetHttpResponseFields(fs) => Ok(fs)
    case CurlHeaderBlock(block) =>
      match RawHeaders.ResponseHeaders(block)
      case Ok(fs) => Ok(fs)
      case Err(e) => Err(HeaderParseFailed(e))
  }

  /** Where a response's status comes from. */
  datatype CodeSource = CurlCode(code: int) | NetHttpCode(raw: RawCode, table: seq<(int, string)>)

  datatype EventRequest = EventRequest(
    time: string, uri: string, verb: string, headers: seq<Field>, apiVersion: Option<string>,
    body: Option<EventBody>, transferEncoding: Option<string>)

  datatype EventResponse = EventResponse(
    time: string, status: int, headers: seq<Field>,
    body: Option<EventBody>, transferEncoding: Option<string>)

  /** The body fields of an event part: present only with `log_body` and a
      body. */
  function BodyFields(memo: BodyMemo, logBody: bool): (r: (Option<EventBody>, Option<string>))
    ensures r.0.Some? <==> logBody && HasBody(memo.body)
    ensures r.0.Some? ==> r.0.value == Decode(memo.body.value, memo.parse, memo.encode64)
    ensures r.1.Some? <==> logBody && HasBody(memo.body) && memo.parse(memo.body.value).None?
    ensures r.1.Some? ==> r.1.value == Base64Encoding
  {
    if logBody && HasBody(memo.body)
    then (Some(Decode(memo.body.value, memo.parse, memo.encode64)), EncodingFor(memo.body.value, memo.parse))
    else (None, None)
  }

  class RequestWrapper {
    const url: string
    const verb: string
    const headerSource: RequestHeaderSource
    const time: string
    const memo: BodyMemo

    constructor (url: string, verb: string, headerSource: RequestHeaderSource, time: string, memo: BodyMemo)
      ensures this.url == url && this.verb == verb && this.headerSource == headerSource
      ensures this.time == time && this.memo == memo
    {
      this.url := url;
      this.verb := verb;
      this.headerSource := headerSource;
      this.time := time;
      this.memo := memo;
    }

    /** What `to_event_request_model` builds: time, uri and headers copied,
        the verb upper-cased, no api version, and the body fields only with
        `log_body` and a body. */
    function Model(logBody: bool): (r: EventRequest)
      ensures r.time == time && r.uri == url && r.verb == Upper(verb)
      ensures r.headers == RequestHeaders(headerSource) && r.apiVersion.None?
      ensures (r.body, r.transferEncoding) == BodyFields(memo, logBody)
    {
      var (b, enc) := BodyFields(memo, logBody);
      EventRequest(time, url, Upper(verb), RequestHeaders(headerSource), None, b, enc)
    }

    /** `to_event_request_model(log_body:)`, querying the memoised body. */
    method ToEventRequestModel(logBody: bool) returns (r: EventRequest)
      requires memo.Valid()
      modifies memo
      ensures memo.Valid()
      ensures r == Model(logBody)
    {
      var body: Option<EventBody> := None;
      var encoding: Option<string> := None;
      if logBody && HasBody(memo.body) {
        body := memo.EventModelBody();
        encoding := memo.EventModelBodyTransferEncoding();
      }
      r := EventRequest(time, url, Upper(verb), RequestHeaders(headerSource), None, body, encoding);
    }
  }

  class ResponseWrapper {
    const codeSource: CodeSource
    const headerSource: ResponseHeaderSource
    const time: string
    const memo: BodyMemo
    /** `@code` of the Net::HTTP response. */
    var codeMemo: Option<int>

    constructor (codeSource: CodeSource, headerSource: ResponseHeaderSource, time: string, memo: BodyMemo)
      ensures this.codeSource == codeSource && this.headerSource == headerSource
      ensures this.time == time && this.memo == memo && codeMemo.None?
    {
      this.codeSource := codeSource;
      this.headerSource := headerSource;
      this.time := time;
      this.memo := memo;
      codeMemo := None;
    }

    /** The status `code` reports: curl's `response_code`, or the converted
        Net::HTTP code. */
    function Status(): (r: Result<int, AdapterError>)
      ensures codeSource.CurlCode? ==> r == Ok(codeSource.code)
      ensures codeSource.NetHttpCode? ==> r == NetHttpStatus(codeSource.raw, codeSource.table)
    {
      match codeSource
      case CurlCode(c) => Ok(c)
      case NetHttpCode(raw, table) => NetHttpStatus(raw, table)
    }

    ghost predicate CodeValid()
      reads this
    {
      codeMemo.Some? ==> codeSource.NetHttpCode? && Status() == Ok(codeMemo.value)
    }

    /** `code`: for Net::HTTP, `@code ||= ...to_i`, converted once and then
        served from `@code`. */
    method Code() returns (r: Result<int, AdapterError>)
      requires CodeValid()
      modifies this`codeMemo
      ensures CodeValid()
      ensures r == Status()
      ensures old(codeMemo).Some? ==> codeMemo == old(codeMemo)
      ensures codeSource.NetHttpCode? && r.Ok? ==> codeMemo == Some(r.value)
    {
      match codeSource {
        case CurlCode(c) =>
          r := Ok(c);
        case NetHttpCode(raw, table) =>
          if codeMemo.Some? {
            return Ok(codeMemo.value);
          }
          r := NetHttpStatus(raw, table);
          if r.Ok? {
            codeMemo := Some(r.value);
          }
      }
    }

    /** What `to_event_response_model` builds: time and headers copied,
        status from `code`, and the body fields only with `log_body` and a
        body. It fails when the status or the headers do. */
    function Model(logBody: bool): (r: Result<EventResponse, AdapterError>)
      ensures r.Ok? <==> Status().Ok? && ResponseHeaders(headerSource).Ok?
      ensures Status().Err? ==> r == Err(Status().error)
      ensures r.Ok? ==>
        && r.value.time == time && r.value.status == Status().value
        && r.value.headers == ResponseHeaders(headerSource).value
        && (r.value.body, r.value.transferEncoding) == BodyFields(memo, logBody)
    {
      match Status()
      case Err(e) => Err(e)
      case Ok(status) =>
        match ResponseHeaders(headerSource)
        case Err(e) => Err(e)
        case Ok(h) =>
          var (b, enc) := BodyFields(memo, logBody);
          Ok(EventResponse(time, status, h, b, enc))
    }

    /** `to_event_response_model(log_body:)`. */
    method ToEventResponseModel(logBody: bool) returns (r: Result<EventResponse, AdapterError>)
      requires memo.Valid() && CodeValid()
      modifies memo, this`codeMemo
      ensures memo.Valid() && CodeValid()
      ensures r == Model(logBody)
      ensures r.Err? ==> unchanged(memo)
    {
      var status := Code();
      if status.Err? {
        return Err(status.error);
      }
      var headers := ResponseHeaders(headerSource);
      if headers.Err? {
        return Err(headers.error);
      }
      var body: Option<EventBody> := None;
      var encoding: Option<string> := None;
      if logBody && HasBody(memo.body) {
        body := memo.EventModelBody();
        encoding := memo.EventModelBodyTransferEncoding();
      }
      r := Ok(EventResponse(time, status.value, headers.value, body, encoding));
    }
  }

  // ----- the adapters ------------------------------------------------------

  /** The marker that identifies the collection service's own traffic. */
  const SelfMarker: string := "moesif"

  /** `moesif_event?`: the lower-cased URL contains "moesif". */
  predicate IsMoesifUrl(url: string) {
    Contains(Lower(url), SelfMarker)
  }

  /** A URL that contains the marker in any mix of cases is self traffic. */
  lemma MarkerInAnyCase(pre: string, mid: string, post: string)
    requires Lower(mid) == SelfMarker
    ensures IsMoesifUrl(pre + mid + post)
  {
    LowerAppend(pre + mid, post);
    LowerAppend(pre, mid);
    ContainsMiddle(Lower(pre), SelfMarker, Lower(post));
  }

  /** The six characters of `url` from `i` on read "moesif" once
      lower-cased. */
  predicate MarkerAt(url: string, i: int) {
    0 <= i <= |url| - |SelfMarker| &&
    forall k :: 0 <= k < |SelfMarker| ==> LowerChar(url[i + k]) == SelfMarker[k]
  }

  /** Conversely, a URL counts as self traffic only where some stretch of it
      reads "moesif" once lower-cased. */
  lemma MarkerFound(url: string)
    requires IsMoesifUrl(url)
    ensures exists i :: MarkerAt(url, i)
  {
    var i :| 0 <= i <= |Lower(url)| - |SelfMarker| && OccursAt(Lower(url), SelfMarker, i);
    forall k | 0 <= k < |SelfMarker| ensures LowerChar(url[i + k]) == SelfMarker[k] {
      LowerAt(url, i + k);
      assert Lower(url)[i..i + |SelfMarker|][k] == Lower(url)[i + k];
    }
    assert MarkerAt(url, i);
  }

  /** The captured Net::HTTP URL is self traffic exactly when the address
      and path are: the "https://" in front holds no 'm', so it can take
      no part in a "moesif". */
  lemma CapturedUrlSelfTraffic(address: string, path: string)
    ensures IsMoesifUrl(CapturedUrl(address, path)) <==> IsMoesifUrl(address + path)
  {
    var x := address + path;
    assert CapturedUrl(address, path) == HttpsPrefix + x;
    LowerAppend(HttpsPrefix, x);
    ShiftedMarker(Lower(HttpsPrefix), Lower(x));
  }

  /** Lower-casing "https://" gives no 'm'. */
  lemma LoweredPrefixHasNoM(k: int)
    requires 0 <= k < |HttpsPrefix|
    ensures Lower(HttpsPrefix)[k] != 'm'
  {
    LowerAt(HttpsPrefix, k);
  }

  /** In front of a text, a stretch with no 'm' neither adds nor hides a
      "moesif". */
  lemma ShiftedMarker(lp: string, lx: string)
    requires |lp| == |HttpsPrefix| && lp == Lower(HttpsPrefix)
    ensures Contains(lp + lx, SelfMarker) <==> Contains(lx, SelfMarker)
  {
    var u := lp + lx;
    if Contains(u, SelfMarker) {
      var j :| 0 <= j <= |u| - |SelfMarker| && OccursAt(u, SelfMarker, j);
      assert u[j] == u[j..j + |SelfMarker|][0];
      if j < |lp| {
        LoweredPrefixHasNoM(j);
        assert false;
      }
      assert u[j..j + |SelfMarker|] == lx[j - |lp|..j - |lp| + |SelfMarker|];
      assert OccursAt(lx, SelfMarker, j - |lp|);
    }
    if Contains(lx, SelfMarker) {
      var i :| 0 <= i <= |lx| - |SelfMarker| && OccursAt(lx, SelfMarker, i);
      assert u[i + |lp|..i + |lp| + |SelfMarker|] == lx[i..i + |SelfMarker|];
      assert OccursAt(u, SelfMarker, i + |lp|);
    }
  }

  /** What libcurl exposes of one finished `Curl::Easy` transfer. */
  datatype CurlHandle = CurlHandle(
    url: string, headers: seq<(string, CurlHeaderValue)>, postBody: Option<string>,
    responseCode: int, bodyStr: Option<string>, headerStr: string)

  /** The native Net::HTTP request and response, as far as the adapter
      reads them. */
  datatype NetHttpRequest = NetHttpRequest(path: string, verb: string, body: Option<string>, headers: seq<Field>)
  datatype NetHttpResponse = NetHttpResponse(code: RawCode, body: BodyObject, headers: seq<Field>)

  /** What the user hooks receive as `base_request` and `base_response`:
      for curb the adapter's own wrappers (`alias_method :base_request,
      :request`), for Net::HTTP the native objects. */
  datatype HookArgument =
    | CurbRequestArgument(curl: CurlHandle, verb: string, time: string)
    | CurbResponseArgument(curl: CurlHandle, time: string)
    | NetHttpRequestArgument(request: NetHttpRequest)
    | NetHttpResponseArgument(response: NetHttpResponse)

  /** `AbstractAdapter`: one captured call, its request and response
      wrappers. */
  class Adapter {
    const request: RequestWrapper
    const response: ResponseWrapper
    const baseRequest: HookArgument
    const baseResponse: HookArgument

    ghost predicate Valid()
      reads this, request.memo, response.memo, response
    {
      request.memo != response.memo && request.memo.Valid() && response.memo.Valid() && response.CodeValid()
    }

    /** `Moesif::Curb::Easy::Adapter.new(curl, method, request_time,
        response_time)`: url, verb and times as given, request headers and
        body straight from the handle, response headers parsed from the raw
        header block. */
    /** The adapter is the one `Curb` builds from these arguments. */
    ghost predicate FromCurl(curl: CurlHandle, verb: string, requestTime: string, responseTime: string,
                       parse: string -> Option<Json>, encode64: string -> string)
    {
      && request.url == curl.url && request.verb == verb && request.time == requestTime
      && request.headerSource == CurlRequestFields(curl.headers) && request.memo.body == curl.postBody
      && response.codeSource == CurlCode(curl.responseCode) && response.time == responseTime
      && response.headerSource == CurlHeaderBlock(curl.headerStr) && response.memo.body == curl.bodyStr
      && request.memo.parse == parse && response.memo.parse == parse
      && request.memo.encode64 == encode64 && response.memo.encode64 == encode64
      && baseRequest == CurbRequestArgument(curl, verb, requestTime)
      && baseResponse == CurbResponseArgument(curl, responseTime)
    }

    /** The adapter is the one `NetHttp` builds from these arguments. */
    ghost predicate FromNetHttp(url: string, req: NetHttpRequest, resp: NetHttpResponse, table: seq<(int, string)>,
                          requestTime: string, responseTime: string,
                          parse: string -> Option<Json>, encode64: string -> string)
    {
      && request.url == url && request.verb == Upper(req.verb) && request.time == requestTime
      && request.headerSource == NetHttpRequestFields(req.headers) && request.memo.body == req.body
      && response.codeSource == NetHttpCode(resp.code, table) && response.time == responseTime
      && response.headerSource == NetHttpResponseFields(resp.headers)
      && response.memo.body == Some(ResponseBody(Reader(resp.body)))
      && request.memo.parse == parse && response.memo.parse == parse
      && request.memo.encode64 == encode64 && response.memo.encode64 == encode64
      && baseRequest == NetHttpRequestArgument(req) && baseResponse == NetHttpResponseArgument(resp)
    }

    constructor Curb(curl: CurlHandle, verb: string, requestTime: string, responseTime: string,
                     parse: string -> Option<Json>, encode64: string -> string)
      ensures Valid() && fresh(request) && fresh(response) && fresh(request.memo) && fresh(response.memo)
      ensures request.memo.cached.None? && response.memo.cached.None? && response.codeMemo.None?
      ensures FromCurl(curl, verb, requestTime, responseTime, parse, encode64)
    {
      baseRequest := CurbRequestArgument(curl, verb, requestTime);
      baseResponse := CurbResponseArgument(curl, responseTime);
      var reqMemo := new BodyMemo(curl.postBody, parse, encode64);
      var respMemo := new BodyMemo(curl.bodyStr, parse, encode64);
      request := new RequestWrapper(curl.url, verb, CurlRequestFields(curl.headers), requestTime, reqMemo);
      response := new ResponseWrapper(CurlCode(curl.responseCode), CurlHeaderBlock(curl.headerStr), responseTime, respMemo);
    }

    /** `NetHTTPAdapter.new(Request.new(url, request, request_time),
        Response.new(response, response_time))`: the verb is the native
        method upper-cased, the response body is the joined body text. */
    constructor NetHttp(url: string, req: NetHttpRequest, resp: NetHttpResponse, table: seq<(int, string)>,
                        requestTime: string, responseTime: string,
                        parse: string -> Option<Json>, encode64: string -> string)
      ensures Valid() && fresh(request) && fresh(response) && fresh(request.memo) && fresh(response.memo)
      ensures request.memo.cached.None? && response.memo.cached.None? && response.codeMemo.None?
      ensures FromNetHttp(url, req, resp, table, requestTime, responseTime, parse, encode64)
    {
      baseRequest := NetHttpRequestArgument(req);
      baseResponse := NetHttpResponseArgument(resp);
      var reqMemo := new BodyMemo(req.body, parse, encode64);
      var respMemo := new BodyMemo(Some(ResponseBody(Reader(resp.body))), parse, encode64);
      request := new RequestWrapper(url, Upper(req.verb), NetHttpRequestFields(req.headers), requestTime, reqMemo);
      response := new ResponseWrapper(NetHttpCode(resp.code, table), NetHttpResponseFields(resp.headers), responseTime, respMemo);
    }

    /** `moesif_event?`. */
    function IsMoesifEvent(): bool {
      IsMoesifUrl(request.url)
    }

    /** The two model conversions `send_moesif_event` starts with: the
        request model first, then the response model. */
    method EventModels(logBody: bool) returns (req: EventRequest, resp: Result<EventResponse, AdapterError>)
      requires Valid()
      modifies request.memo, response.memo, response`codeMemo
      ensures Valid()
      ensures req == request.Model(logBody) && resp == response.Model(logBody)
    {
      req := request.ToEventRequestModel(logBody);
      resp := response.ToEventResponseModel(logBody);
    }
  }
}
