/**
 * The gzip response middleware (src/middleware.ts): which responses are
 * compressed, how the `Vary` header is merged, and the order of the
 * skip conditions in `onRequest`.
 *
 * The compressor is a parameter. Header names are kept lower-cased, as the
 * `Headers` object looks them up case-insensitively.
 */
module Middleware {
  import opened Wrappers
  import opened Text

  newtype byte = b: int | 0 <= b < 256

  const MinCompressSize: int := 1024
  const MaxCompressSize: int := 3 * 1024 * 1024

  const CompressibleTypes: set<string> := {
    "application/json", "application/javascript", "text/javascript", "text/css",
    "image/svg+xml", "application/xml", "application/xhtml+xml"
  }

  /** `isInCompressRange(size)`: from 1 KiB to 3 MiB, both ends included. */
  function IsInCompressRange(size: int): (b: bool)
    ensures b <==> 1024 <= size <= 3145728
  {
    MinCompressSize <= size <= MaxCompressSize
  }

  /** The media type: the text before the first `;`, trimmed and lower-cased. */
  function MediaType(contentType: string): string
  {
    Lower(Trim(BeforeFirst(contentType, ';')))
  }

  /** `isCompressible(contentType)`: a missing or empty type is not compressible. */
  function IsCompressible(contentType: Option<string>): (b: bool)
    ensures contentType.None? ==> !b
    ensures contentType == Some("") ==> !b
    ensures contentType.Some? && contentType.value != "" ==>
      (b <==> StartsWith(MediaType(contentType.value), "text/") || MediaType(contentType.value) in CompressibleTypes)
  {
    match contentType
    case None => false
    case Some(t) =>
      if t == "" then false
      else
        var m := MediaType(t);
        StartsWith(m, "text/") || m in CompressibleTypes
  }

  /** Parameters after the media type, white space around it and letter case do not matter. */
  lemma CompressibleIgnoresParameters(t: string, params: string)
    requires ';' !in t && t != ""
    ensures IsCompressible(Some(t + ";" + params)) == IsCompressible(Some(t))
  {
    var s := t + ";" + params;
    assert s[|t|] == ';';
    FirstIndexIs(s, ';', |t|);
    assert s[..|t|] == t;
  }

  // ---------------------------------------------------------------------
  // Vary
  // ---------------------------------------------------------------------

  /** The tokens of a `Vary` value as `appendVary` compares them. */
  function VaryTokens(existing: string): seq<string>
  {
    Normalized(Split(existing, ','))
  }

  /** `parts.map((s) => s.trim().toLowerCase())` */
  function Normalized(parts: seq<string>): (r: seq<string>)
    ensures |r| == |parts|
  {
    if parts == [] then []
    else Normalized(parts[..|parts| - 1]) + [Lower(Trim(parts[|parts| - 1]))]
  }

  /**
   * The `Vary` value after `appendVary(headers, value)`: set to `value` when
   * absent or empty, unchanged when `value` is already listed, otherwise
   * `value` appended after a comma.
   */
  function AppendedVary(existing: Option<string>, value: string): string
  {
    if existing.None? || existing.value == "" then value
    else if Lower(value) in VaryTokens(existing.value) then existing.value
    else existing.value + ", " + value
  }

  /** With no `Vary` header the result is exactly `value`. */
  lemma AppendVaryAbsent(value: string)
    ensures AppendedVary(None, value) == value
    ensures AppendedVary(Some(""), value) == value
  {
  }

  /** A value not yet listed is appended, keeping the existing text as a prefix. */
  lemma AppendVaryKeepsExisting(existing: string, value: string)
    requires existing != ""
    ensures AppendedVary(Some(existing), value) == existing
         || AppendedVary(Some(existing), value) == existing + ", " + value
    ensures Lower(value) in VaryTokens(existing) <==> AppendedVary(Some(existing), value) == existing
  {
    if Lower(value) !in VaryTokens(existing) {
      assert |existing + ", " + value| > |existing|;
    }
  }

  /** A token is clean when trimming does nothing to it and it holds no comma. */
  predicate CleanToken(value: string)
  {
    ',' !in value && (value == [] || (!IsSpace(value[0]) && !IsSpace(value[|value| - 1])))
  }

  /** Appending twice is appending once, for a clean token such as `Accept-Encoding`. */
  lemma AppendVaryIdempotent(existing: Option<string>, value: string)
    requires CleanToken(value) && value != ""
    ensures AppendedVary(Some(AppendedVary(existing, value)), value) == AppendedVary(existing, value)
  {
    if existing.None? || existing.value == "" {
      TokensOfSingle(value);
    } else if Lower(value) !in VaryTokens(existing.value) {
      TokensAfterAppend(existing.value, value);
    }
  }

  /** A clean token on its own is its only token. */
  lemma TokensOfSingle(value: string)
    requires CleanToken(value)
    ensures VaryTokens(value) == [Lower(value)]
  {
    SplitWithoutSeparator(value, ',');
    NormalizedSingle(value);
    TrimOfTrimmed(value);
  }

  lemma NormalizedSingle(x: string)
    ensures Normalized([x]) == [Lower(Trim(x))]
  {
    assert [x][..0] == [];
  }

  /** Appending `", " + value` adds exactly one token, the lower-cased value. */
  lemma TokensAfterAppend(e: string, value: string)
    requires CleanToken(value)
    ensures VaryTokens(e + ", " + value) == VaryTokens(e) + [Lower(value)]
  {
    var tail := [' '] + value;
    assert e + ", " + value == e + [','] + tail;
    NoCommaAfterSpace(value);
    SplitAppend(e, ',', tail);
    NormalizedAppend(Split(e, ','), tail);
    TrimTail(value);
  }

  lemma NormalizedAppend(parts: seq<string>, x: string)
    ensures Normalized(parts + [x]) == Normalized(parts) + [Lower(Trim(x))]
  {
    assert (parts + [x])[..|parts|] == parts;
  }

  lemma TrimTail(value: string)
    requires CleanToken(value)
    ensures Trim([' '] + value) == value
  {
    TrimSpacePrefix(' ', value);
    TrimOfTrimmed(value);
  }

  lemma NoCommaAfterSpace(value: string)
    requires ',' !in value
    ensures ',' !in [' '] + value
  {
    forall k | 0 <= k < |[' '] + value| ensures ([' '] + value)[k] != ',' {
      if k > 0 { assert ([' '] + value)[k] == value[k - 1]; }
    }
  }

  /** A response's header list; names are stored lower-cased. */
  class Headers {
    var fields: map<string, string>

    /** Every stored name is already lower case, so a lower-cased lookup finds it. */
    ghost predicate Valid()
      reads this
    {
      forall k :: k in fields ==> Lower(k) == k
    }

    constructor(init: map<string, string>)
      requires forall k :: k in init ==> Lower(k) == k
      ensures Valid()
      ensures fields == init
    {
      fields := init;
    }

    function Get(name: string): Option<string>
      reads this
    {
      if Lower(name) in fields then Some(fields[Lower(name)]) else None
    }

    method Set(name: string, value: string)
      requires Valid()
      modifies this
      ensures Valid()
      ensures fields == old(fields)[Lower(name) := value]
    {
      LowerIdempotent(name);
      fields := fields[Lower(name) := value];
    }

    /** `appendVary(headers, value)`: only the `vary` entry can change. */
    method AppendVary(value: string)
      requires Valid()
      modifies this
      ensures Valid()
      ensures fields == old(fields)["vary" := AppendedVary(old(Get("Vary")), value)]
           || (fields == old(fields) && old(Get("Vary")).Some? && AppendedVary(old(Get("Vary")), value) == old(Get("Vary")).value)
      ensures Get("Vary") == Some(AppendedVary(old(Get("Vary")), value))
    {
      var existing := Get("Vary");
      assert Lower("Vary") == "vary";
      if existing.None? || existing.value == "" {
        Set("Vary", value);
        return;
      }
      var parts := VaryTokens(existing.value);
      if Lower(value) !in parts {
        Set("Vary", existing.value + ", " + value);
      }
    }
  }

  // ---------------------------------------------------------------------
  // onRequest
  // ---------------------------------------------------------------------

  /** What `onRequest` reads of the request. */
  datatype Request = Request(httpMethod: string, acceptEncoding: Option<string>)

  /** The response produced by the handler: its headers (lower-cased names) and body. */
  datatype Response = Response(headers: map<string, string>, body: seq<byte>)

  /** What the middleware returns. */
  datatype Outcome =
    | PassThrough                                   // the handler's response as is
    | Rebuilt(body: seq<byte>)                      // `new Response(body, response)`: same body and headers
    | Compressed(body: seq<byte>, headers: map<string, string>)

  function Header(r: Response, name: string): Option<string>
  {
    if name in r.headers then Some(r.headers[name]) else None
  }

  /** `Number(text)` restricted to plain decimal text; blank text is 0, anything else is not finite. */
  function NumberOf(text: string): Option<int>
  {
    var t := Trim(text);
    if t == "" then Some(0)
    else if forall k :: 0 <= k < |t| ==> '0' <= t[k] <= '9' then Some(DigitsValue(t))
    else None
  }

  /**
   * The Content-Length guard as written: `Number(null)` is 0, so a response
   * without the header counts as a declared length of 0 and is skipped.
   */
  predicate LengthSkipsAsWritten(contentLength: Option<string>)
  {
    var n := if contentLength.None? then Some(0) else NumberOf(contentLength.value);
    n.Some? && !IsInCompressRange(n.value)
  }

  /** The Content-Length guard as intended: only a declared, finite length outside the range skips. */
  predicate LengthSkips(contentLength: Option<string>)
  {
    contentLength.Some? && var n := NumberOf(contentLength.value); n.Some? && !IsInCompressRange(n.value)
  }

  /** The two guards agree whenever the header is present. */
  lemma LengthGuardsAgreeWhenPresent(contentLength: Option<string>)
    requires contentLength.Some?
    ensures LengthSkips(contentLength) == LengthSkipsAsWritten(contentLength)
  {
  }

  /**
   * The header edits of a compressed response: marked `gzip`, with the new
   * length, and every header other than these and `vary` kept.
   */
  function CompressedHeaders(original: map<string, string>, gzipped: seq<byte>): (h: map<string, string>)
    ensures "content-encoding" in h && h["content-encoding"] == "gzip"
    ensures "content-length" in h && h["content-length"] == NatToString(|gzipped|)
    ensures forall k :: k in original && k !in {"content-encoding", "content-length", "vary"} ==> k in h && h[k] == original[k]
  {
    var h := original["content-encoding" := "gzip"]["content-length" := NatToString(|gzipped|)];
    h["vary" := AppendedVary(if "vary" in h then Some(h["vary"]) else None, "Accept-Encoding")]
  }

  /** The guard sequence of `onRequest`, given the outcome of the Content-Length guard. */
  function DecideWith(lengthSkipped: bool, req: Request, resp: Response, gzip: seq<byte> -> seq<byte>): Outcome
  {
    if req.httpMethod != "GET" && req.httpMethod != "HEAD" then PassThrough
    else if !Includes(Lower(req.acceptEncoding.GetOr("")), "gzip") then PassThrough
    else if "content-encoding" in resp.headers then PassThrough
    else if !IsCompressible(Header(resp, "content-type")) then PassThrough
    else if lengthSkipped then PassThrough
    else if req.httpMethod == "HEAD" then PassThrough
    else if !IsInCompressRange(|resp.body|) then Rebuilt(resp.body)
    else
      var gz := gzip(resp.body);
      if 20 * |gz| >= 19 * |resp.body| then Rebuilt(resp.body)
      else Compressed(gz, CompressedHeaders(resp.headers, gz))
  }

  /** `onRequest` as written. */
  function DecideAsWritten(req: Request, resp: Response, gzip: seq<byte> -> seq<byte>): Outcome
  {
    DecideWith(LengthSkipsAsWritten(Header(resp, "content-length")), req, resp, gzip)
  }

  /**
   * As written, the body is compressed iff every guard passes and the
   * response also declares a Content-Length.
   */
  lemma CompressedAsWrittenIff(req: Request, resp: Response, gzip: seq<byte> -> seq<byte>)
    ensures DecideAsWritten(req, resp, gzip).Compressed? <==>
      Eligible(req, resp, gzip(resp.body)) && "content-length" in resp.headers
  {
    var h := Header(resp, "content-length");
    CompressedWithIff(LengthSkipsAsWritten(h), req, resp, gzip);
    EligibleAtLengthGuard(req, resp, gzip(resp.body));
    if "content-length" in resp.headers {
      LengthGuardsAgreeWhenPresent(h);
    } else {
      assert LengthSkipsAsWritten(None);
    }
  }

  /** Whatever the Content-Length guard says, compression needs every other guard to pass. */
  lemma CompressedWithIff(lengthSkipped: bool, req: Request, resp: Response, gzip: seq<byte> -> seq<byte>)
    ensures DecideWith(lengthSkipped, req, resp, gzip).Compressed? <==>
      ReachesLengthGuard(req, resp, gzip(resp.body)) && !lengthSkipped
  {
  }

  /** Eligibility is reaching the Content-Length guard and passing it. */
  lemma EligibleAtLengthGuard(req: Request, resp: Response, gz: seq<byte>)
    ensures Eligible(req, resp, gz) <==>
      ReachesLengthGuard(req, resp, gz) && !LengthSkips(Header(resp, "content-length"))
  {
  }

  /** `onRequest` with the Content-Length guard applied only to a declared length. */
  function Decide(req: Request, resp: Response, gzip: seq<byte> -> seq<byte>): Outcome
  {
    DecideWith(LengthSkips(Header(resp, "content-length")), req, resp, gzip)
  }

  /** The guard conditions under which the body is compressed. */
  ghost predicate Eligible(req: Request, resp: Response, gz: seq<byte>)
  {
    && req.httpMethod == "GET"
    && Contains(Lower(req.acceptEncoding.GetOr("")), "gzip")
    && "content-encoding" !in resp.headers
    && IsCompressible(Header(resp, "content-type"))
    && !LengthSkips(Header(resp, "content-length"))
    && IsInCompressRange(|resp.body|)
    && 20 * |gz| < 19 * |resp.body|
  }

  /**
   * The body is replaced by the gzipped one iff every guard passes: GET,
   * gzip accepted, not already encoded, compressible, length in range and a
   * gzipped size under 95% of the original; the new headers are `CompressedHeaders`.
   */
  lemma CompressedIffEligible(req: Request, resp: Response, gzip: seq<byte> -> seq<byte>)
    ensures Decide(req, resp, gzip).Compressed? <==> Eligible(req, resp, gzip(resp.body))
    ensures Decide(req, resp, gzip).Compressed? ==>
      Decide(req, resp, gzip) == Compressed(gzip(resp.body), CompressedHeaders(resp.headers, gzip(resp.body)))
  {
  }

  /** A compressed response lists `Accept-Encoding` in its `Vary` header. */
  lemma CompressedHeadersVary(original: map<string, string>, gz: seq<byte>)
    ensures var h := CompressedHeaders(original, gz);
      "vary" in h && Lower("Accept-Encoding") in VaryTokens(h["vary"])
  {
    var h0 := original["content-encoding" := "gzip"]["content-length" := NatToString(|gz|)];
    assert CleanToken("Accept-Encoding");
    VaryListsValue(if "vary" in h0 then Some(h0["vary"]) else None, "Accept-Encoding");
  }

  /** After `AppendedVary`, the value is among the tokens. */
  lemma VaryListsValue(existing: Option<string>, value: string)
    requires CleanToken(value) && value != ""
    ensures Lower(value) in VaryTokens(AppendedVary(existing, value))
  {
    AppendVaryIdempotent(existing, value);
    var once := AppendedVary(existing, value);
    assert once != "";
  }

  /** Responses that skip the body checks are passed through untouched; rebuilt ones keep their body. */
  lemma NeverAltersBodyUnlessCompressed(req: Request, resp: Response, gzip: seq<byte> -> seq<byte>)
    ensures Decide(req, resp, gzip).Rebuilt? ==> Decide(req, resp, gzip).body == resp.body
    ensures req.httpMethod == "HEAD" ==> Decide(req, resp, gzip) == PassThrough
  {
  }

  /**
   * The finding: a compressible 2048-byte GET response without a
   * Content-Length header, whose gzipped body is 100 bytes, is passed through
   * uncompressed as written, but compressed once only a declared length is checked.
   */
  lemma MissingLengthNeverCompressed()
    ensures DecideAsWritten(SampleRequest(), SampleResponse(), SampleGzip) == PassThrough
    ensures Decide(SampleRequest(), SampleResponse(), SampleGzip).Compressed?
  {
    var req, resp := SampleRequest(), SampleResponse();
    SampleReachesLengthGuard();
    assert LengthSkipsAsWritten(None);
    assert !LengthSkips(None);
    DecidedByLengthGuard(LengthSkipsAsWritten(None), req, resp, SampleGzip);
    DecidedByLengthGuard(LengthSkips(None), req, resp, SampleGzip);
  }

  /**
   * A GET request that passes every guard before the Content-Length one,
   * with a body in range that gzip shrinks below 95%.
   */
  predicate ReachesLengthGuard(req: Request, resp: Response, gz: seq<byte>)
  {
    && req.httpMethod == "GET"
    && Includes(Lower(req.acceptEncoding.GetOr("")), "gzip")
    && "content-encoding" !in resp.headers
    && IsCompressible(Header(resp, "content-type"))
    && IsInCompressRange(|resp.body|)
    && 20 * |gz| < 19 * |resp.body|
  }

  /** Once the earlier guards pass, the Content-Length guard alone decides. */
  lemma DecidedByLengthGuard(lengthSkipped: bool, req: Request, resp: Response, gzip: seq<byte> -> seq<byte>)
    requires ReachesLengthGuard(req, resp, gzip(resp.body))
    ensures lengthSkipped ==> DecideWith(lengthSkipped, req, resp, gzip) == PassThrough
    ensures !lengthSkipped ==> DecideWith(lengthSkipped, req, resp, gzip).Compressed?
  {
  }

  /** The sample passes every guard before the Content-Length one and declares no length. */
  lemma SampleReachesLengthGuard()
    ensures ReachesLengthGuard(SampleRequest(), SampleResponse(), SampleGzip(SampleResponse().body))
    ensures Header(SampleResponse(), "content-length") == None
  {
    SampleAcceptsGzip();
    SampleIsCompressible();
    SampleSizes();
  }

  lemma SampleAcceptsGzip()
    ensures SampleRequest().httpMethod == "GET"
    ensures Includes(Lower(SampleRequest().acceptEncoding.GetOr("")), "gzip")
  {
    AcceptsGzip();
  }

  lemma SampleIsCompressible()
    ensures "content-encoding" !in SampleResponse().headers
    ensures IsCompressible(Header(SampleResponse(), "content-type"))
    ensures Header(SampleResponse(), "content-length") == None
  {
    assert Header(SampleResponse(), "content-type") == Some("text/html");
    HtmlIsCompressible();
  }

  lemma SampleSizes()
    ensures IsInCompressRange(|SampleResponse().body|)
    ensures 20 * |SampleGzip(SampleResponse().body)| < 19 * |SampleResponse().body|
  {
  }

  /** A GET request accepting gzip. */
  function SampleRequest(): Request
  {
    Request("GET", Some("gzip, deflate"))
  }

  /** An HTML response of 2048 bytes, without a Content-Length header. */
  function SampleResponse(): (r: Response)
    ensures |r.body| == 2048
  {
    Response(map["content-type" := "text/html"], seq(2048, _ => 0 as byte))
  }

  /** A compressor that returns 100 bytes. */
  function SampleGzip(body: seq<byte>): (r: seq<byte>)
    ensures |r| == 100
  {
    seq(100, _ => 0 as byte)
  }

  lemma AcceptsGzip()
    ensures Includes(Lower("gzip, deflate"), "gzip")
  {
    assert Lower("gzip, deflate")[0..4] == "gzip";
    assert OccursAt(Lower("gzip, deflate"), "gzip", 0);
  }

  lemma HtmlIsCompressible()
    ensures IsCompressible(Some("text/html"))
  {
    HtmlIsItsOwnMediaType();
    HtmlIsText();
    TextTypesAreCompressible("text/html");
  }

  lemma HtmlIsText()
    ensures StartsWith("text/html", "text/")
  {
    assert "text/html"[..5] == "text/";
  }

  /** Every `text/` media type is compressible. */
  lemma TextTypesAreCompressible(t: string)
    requires t != "" && StartsWith(MediaType(t), "text/")
    ensures IsCompressible(Some(t))
  {
  }

  /** "text/html" has no parameters, no surrounding space and no capitals. */
  lemma HtmlIsItsOwnMediaType()
    ensures MediaType("text/html") == "text/html"
  {
    HtmlHasNoParameters();
    HtmlHasNoSurroundingSpace();
    HtmlHasNoCapitals();
  }

  lemma HtmlHasNoParameters()
    ensures BeforeFirst("text/html", ';') == "text/html"
  {
    var t := "text/html";
    assert forall k :: 0 <= k < |t| ==> t[k] != ';';
  }

  lemma HtmlHasNoSurroundingSpace()
    ensures Trim("text/html") == "text/html"
  {
    var t := "text/html";
    assert !IsSpace(t[0]) && !IsSpace(t[|t| - 1]);
    TrimOfTrimmed(t);
  }

  lemma HtmlHasNoCapitals()
    ensures Lower("text/html") == "text/html"
  {
    var t := "text/html";
    assert forall k :: 0 <= k < |t| ==> LowerChar(t[k]) == t[k];
  }
}
