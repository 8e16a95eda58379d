/**
 * The response writer of the server: the standard headers put on every
 * response, and the JSON status response with its message defaulting and
 * optional compression.
 */
module Response {
  import opened Wrappers
  import opened Http

  const Version: string := "v0.6.1"

  const ServerKey: string := "Server"
  /** The cache-prevention header, keyed exactly as the server writes it (with a trailing colon). */
  const CacheControlKey: string := "Cache-control:"
  const CacheControlValue: string := "no-store, no-cache, must-revalidate, proxy-revalidate"
  /** HTTP Strict Transport Security, RFC 6797 section 6.1. */
  const HstsKey: string := "Strict-Transport-Security"
  const HstsValue: string := "max-age=31536000"
  const XssProtectionKey: string := "X-xss-protection"
  const XssProtectionValue: string := "1;mode=block"
  const ContentTypeOptionsKey: string := "X-content-type-options"
  const ContentTypeOptionsValue: string := "nosniff"
  const FrameOptionsKey: string := "X-frame-options"
  const FrameOptionsValue: string := "sameorigin"
  const ContentTypeKey: string := "Content-Type"
  const ContentTypeJson: string := "application/json"
  const ContentEncodingKey: string := "Content-Encoding"
  const ContentEncodingGzip: string := "gzip"

  /** The Server header value: product, version and instance identifier. */
  function ServerValue(): string {
    "Jabba " + Version + " " + ServerId
  }

  /** The fields writeStandardResponseHeaders sets, in the order it sets them. */
  function StandardFields(tlsMode: bool, requestId: string): seq<Field> {
    [Field(ServerKey, ServerValue()), Field(CacheControlKey, CacheControlValue)] +
    (if tlsMode then [Field(HstsKey, HstsValue)] else []) +
    [Field(XssProtectionKey, XssProtectionValue),
     Field(ContentTypeOptionsKey, ContentTypeOptionsValue),
     Field(FrameOptionsKey, FrameOptionsValue),
     Field(XRequestIdHeader, requestId)]
  }

  /**
   * The fields a JSON status response is sent with, in order: the standard
   * ones, the JSON content type and, when compressing, the gzip encoding.
   */
  function StatusFields(tlsMode: bool, requestId: string, sendGzip: bool): seq<Field> {
    StandardFields(tlsMode, requestId) + [Field(ContentTypeKey, ContentTypeJson)] +
    (if sendGzip then [Field(ContentEncodingKey, ContentEncodingGzip)] else [])
  }

  /**
   * Any nine fields shaped like the status fields are written to distinct
   * stored keys when their keys have the lengths of the status keys: the
   * lengths differ, except two pairs of equal length (the correlation
   * identifier and the content type, the XSS protection and the content
   * encoding), which must differ in their first letter.
   */
  lemma StatusShapeDistinct(server: Field, cache: Field, hsts: Field, xss: Field, sniff: Field,
                            frame: Field, id: Field, json: Field, gzip: Field, tlsMode: bool, sendGzip: bool)
    requires |server.key| == 6 && |cache.key| == 14 && |hsts.key| == 25 && |sniff.key| == 22
    requires |frame.key| == 15 && |id.key| == |json.key| == 12 && |xss.key| == |gzip.key| == 16
    requires ToLower(id.key[0]) != ToLower(json.key[0]) && ToLower(xss.key[0]) != ToLower(gzip.key[0])
    ensures DistinctKeys(([server, cache] + (if tlsMode then [hsts] else []) + [xss, sniff, frame, id]) +
                         [json] + (if sendGzip then [gzip] else []))
  {
    ApartFieldsDistinct(([server, cache] + (if tlsMode then [hsts] else []) + [xss, sniff, frame, id]) +
                        [json] + (if sendGzip then [gzip] else []));
  }

  /** The lengths and first letters of the status keys that tell them apart. */
  lemma StatusKeyShapes()
    ensures |ServerKey| == 6 && |CacheControlKey| == 14 && |HstsKey| == 25 && |ContentTypeOptionsKey| == 22
    ensures |FrameOptionsKey| == 15 && |XRequestIdHeader| == |ContentTypeKey| == 12
    ensures |XssProtectionKey| == |ContentEncodingKey| == 16
    ensures XRequestIdHeader[0] == 'X' && ContentTypeKey[0] == 'C'
    ensures XssProtectionKey[0] == 'X' && ContentEncodingKey[0] == 'C'
  {
  }

  /** No two status fields share a stored key, so none overwrites another. */
  lemma StatusFieldsDistinct(tlsMode: bool, requestId: string, sendGzip: bool)
    ensures DistinctKeys(StatusFields(tlsMode, requestId, sendGzip))
  {
    StatusKeyShapes();
    StatusShapeDistinct(Field(ServerKey, ServerValue()), Field(CacheControlKey, CacheControlValue),
                        Field(HstsKey, HstsValue), Field(XssProtectionKey, XssProtectionValue),
                        Field(ContentTypeOptionsKey, ContentTypeOptionsValue), Field(FrameOptionsKey, FrameOptionsValue),
                        Field(XRequestIdHeader, requestId), Field(ContentTypeKey, ContentTypeJson),
                        Field(ContentEncodingKey, ContentEncodingGzip), tlsMode, sendGzip);
  }

  /** The standard fields are a prefix of the status fields, so they share no stored key either. */
  lemma StandardFieldsDistinct(tlsMode: bool, requestId: string)
    ensures DistinctKeys(StandardFields(tlsMode, requestId))
  {
    var typed := [Field(ContentTypeKey, ContentTypeJson)];
    StatusFieldsDistinct(tlsMode, requestId, false);
    assert StatusFields(tlsMode, requestId, false) == StandardFields(tlsMode, requestId) + typed;
    DistinctKeysPrefix(StandardFields(tlsMode, requestId), typed);
  }

  /** The header map after writeStandardResponseHeaders has written the standard fields over h. */
  function StandardHeaders(h: Header, tlsMode: bool, requestId: string): Header {
    SetAll(h, StandardFields(tlsMode, requestId))
  }

  /**
   * Every standard field (the fixed keys, HSTS in TLS mode, the correlation
   * identifier) ends up with its single value, whatever spelling a client or
   * an upstream used for it; every other stored key keeps what it had; the
   * stored keys are the old ones and those of the standard fields.
   */
  lemma StandardHeadersWritten(h: Header, tlsMode: bool, requestId: string)
    ensures var r := StandardHeaders(h, tlsMode, requestId);
      && (forall f :: f in StandardFields(tlsMode, requestId) ==> HasSingle(r, f.key, f.value))
      && (forall k :: k !in FieldKeys(StandardFields(tlsMode, requestId)) ==> SameAt(h, r, k))
      && r.Keys == h.Keys + FieldKeys(StandardFields(tlsMode, requestId))
      && (CanonicalKeys(h) ==> CanonicalKeys(r))
  {
    StandardFieldsDistinct(tlsMode, requestId);
    SetAllReadsEach(h, StandardFields(tlsMode, requestId));
  }

  /**
   * On a response that did not carry HSTS before, HSTS is present afterwards
   * exactly in TLS mode: no other standard field is stored under its key.
   */
  lemma HstsIffTlsMode(h: Header, tlsMode: bool, requestId: string)
    requires CanonicalKey(HstsKey) !in h
    ensures CanonicalKey(HstsKey) in StandardHeaders(h, tlsMode, requestId) <==> tlsMode
  {
    var fields := StandardFields(tlsMode, requestId);
    if tlsMode {
      assert Field(HstsKey, HstsValue) in fields;
    } else {
      ApartKeyNotWritten(fields, HstsKey);
    }
  }

  /** Writing the standard headers twice leaves the same map as writing them once. */
  lemma StandardHeadersIdempotent(h: Header, tlsMode: bool, requestId: string)
    ensures StandardHeaders(StandardHeaders(h, tlsMode, requestId), tlsMode, requestId)
         == StandardHeaders(h, tlsMode, requestId)
  {
    SetAllIdempotent(h, StandardFields(tlsMode, requestId));
  }

  /** The content-encoding header: set to gzip when the body is compressed. */
  function EncodingHeader(h: Header, sendGzip: bool): (r: Header)
    ensures sendGzip ==> HasSingle(r, ContentEncodingKey, ContentEncodingGzip)
    ensures forall k :: k != CanonicalKey(ContentEncodingKey) ==> SameAt(h, r, k)
    ensures !sendGzip ==> r == h
  {
    if sendGzip then Set(h, ContentEncodingKey, ContentEncodingGzip) else h
  }

  /**
   * The header map a JSON status response is sent with: the standard
   * headers, then the JSON content type, then the content encoding.
   */
  function StatusHeaders(h: Header, tlsMode: bool, requestId: string, sendGzip: bool): Header {
    EncodingHeader(Set(StandardHeaders(h, tlsMode, requestId), ContentTypeKey, ContentTypeJson), sendGzip)
  }

  /** Writing the status headers step by step is writing all status fields in order. */
  lemma StatusHeadersInOrder(h: Header, tlsMode: bool, requestId: string, sendGzip: bool)
    ensures StatusHeaders(h, tlsMode, requestId, sendGzip) == SetAll(h, StatusFields(tlsMode, requestId, sendGzip))
  {
    var standard := StandardFields(tlsMode, requestId);
    var typed := [Field(ContentTypeKey, ContentTypeJson)];
    var encoding := if sendGzip then [Field(ContentEncodingKey, ContentEncodingGzip)] else [];
    SetAllAppend(h, standard + typed, encoding);
    SetAllAppend(h, standard, typed);
    assert typed[..0] == [];
    if sendGzip {
      assert encoding[..0] == [];
    }
  }

  /**
   * Every status field (every standard header, the JSON content type and,
   * when compressing, the gzip encoding) ends up with its single value;
   * every other stored key keeps what it had; the stored keys are the old
   * ones and those of the status fields.
   */
  lemma StatusHeadersWritten(h: Header, tlsMode: bool, requestId: string, sendGzip: bool)
    ensures var r := StatusHeaders(h, tlsMode, requestId, sendGzip);
      && (forall f :: f in StatusFields(tlsMode, requestId, sendGzip) ==> HasSingle(r, f.key, f.value))
      && (forall k :: k !in FieldKeys(StatusFields(tlsMode, requestId, sendGzip)) ==> SameAt(h, r, k))
      && r.Keys == h.Keys + FieldKeys(StatusFields(tlsMode, requestId, sendGzip))
      && (CanonicalKeys(h) ==> CanonicalKeys(r))
  {
    StatusHeadersInOrder(h, tlsMode, requestId, sendGzip);
    StatusFieldsDistinct(tlsMode, requestId, sendGzip);
    SetAllReadsEach(h, StatusFields(tlsMode, requestId, sendGzip));
  }

  /**
   * On a response that did not carry a content encoding before, one is
   * present afterwards exactly when the body is compressed.
   */
  lemma EncodingIffGzip(h: Header, tlsMode: bool, requestId: string, sendGzip: bool)
    requires CanonicalKey(ContentEncodingKey) !in h
    ensures CanonicalKey(ContentEncodingKey) in StatusHeaders(h, tlsMode, requestId, sendGzip) <==> sendGzip
  {
    var gzip := Field(ContentEncodingKey, ContentEncodingGzip);
    var typed := StandardFields(tlsMode, requestId) + [Field(ContentTypeKey, ContentTypeJson)];
    StatusHeadersInOrder(h, tlsMode, requestId, sendGzip);
    StatusFieldsDistinct(tlsMode, requestId, true);
    LastFieldPresentIff(h, typed, gzip, sendGzip);
  }

  /** The JSON status body: code, message and correlation identifier. */
  datatype StatusCodeResponse = StatusCodeResponse(code: int, message: string, xRequestId: string)

  /**
   * The bytes of a body, kept symbolic: the JSON encoding of a status
   * response, or the gzip compression of another body.
   */
  datatype Body = Json(response: StatusCodeResponse) | Gzip(inner: Body)

  /** Decompression as a client performs it. */
  function Gunzip(b: Body): Option<Body> {
    match b
    case Gzip(inner) => Some(inner)
    case Json(_) => None
  }

  /** JSON decoding as a client performs it. */
  function ParseJson(b: Body): Option<StatusCodeResponse> {
    match b
    case Json(r) => Some(r)
    case Gzip(_) => None
  }

  /** What a client reads from a body, decompressing first when the response says gzip. */
  function ReadBody(b: Body, gzipped: bool): Option<StatusCodeResponse> {
    if gzipped then
      match Gunzip(b)
      case Some(inner) => ParseJson(inner)
      case None => None
    else ParseJson(b)
  }

  /** The body written for a status response: its JSON, compressed when sendGzip. */
  function EncodeBody(r: StatusCodeResponse, sendGzip: bool): (b: Body)
    ensures ReadBody(b, sendGzip) == Some(r)
    ensures ReadBody(b, sendGzip) == ReadBody(EncodeBody(r, false), false)
  {
    if sendGzip then Gzip(Json(r)) else Json(r)
  }

  /** A message that is missing: empty, or the sentinel "none". */
  predicate IsAbsent(message: string) {
    |message| == 0 || message == "none"
  }

  /**
   * The message a status response carries: the stored message, or, when it
   * is absent, the default that withCode gives for the code.
   */
  function ResponseMessage(message: string, code: int, withCode: int -> string): (m: string)
    ensures IsAbsent(message) ==> m == withCode(code)
    ensures !IsAbsent(message) ==> m == message
  {
    if IsAbsent(message) then withCode(code) else message
  }

  /** Once defaulted, a message is not defaulted again, as long as the default itself is present. */
  lemma ResponseMessageIdempotent(message: string, code: int, withCode: int -> string)
    requires !IsAbsent(withCode(code))
    ensures ResponseMessage(ResponseMessage(message, code, withCode), code, withCode)
         == ResponseMessage(message, code, withCode)
  {
  }

  /** What the response writer sends, in order. */
  datatype Emit =
    | WroteHeader(code: int, header: Header)
    | WroteBody(body: Body)
    | LoggedRoundtrip(code: int, xRequestId: string)

  /**
   * The per-request proxy context, reduced to its downstream response state:
   * the correlation identifier, the status code and message to send, whether
   * to compress, the response header map and what has been sent so far.
   */
  class Proxy {
    var xRequestId: string
    var statusCode: int
    var message: string
    var sendGzip: bool
    var header: Header
    var emitted: seq<Emit>

    constructor (xRequestId: string, statusCode: int, message: string, sendGzip: bool)
      ensures this.xRequestId == xRequestId && this.statusCode == statusCode
      ensures this.message == message && this.sendGzip == sendGzip
      ensures header == map[] && emitted == []
    {
      this.xRequestId := xRequestId;
      this.statusCode := statusCode;
      this.message := message;
      this.sendGzip := sendGzip;
      header := map[];
      emitted := [];
    }

    /** writeStandardResponseHeaders; tlsMode is the runtime's isTLSMode(). */
    method WriteStandardResponseHeaders(tlsMode: bool)
      modifies this`header
      ensures header == StandardHeaders(old(header), tlsMode, xRequestId)
    {
      header := SetAll(header, StandardFields(tlsMode, xRequestId));
    }

    method WriteContentTypeHeader()
      modifies this`header
      ensures header == Set(old(header), ContentTypeKey, ContentTypeJson)
    {
      header := Set(header, ContentTypeKey, ContentTypeJson);
    }

    method WriteContentEncodingHeader()
      modifies this`header
      ensures header == EncodingHeader(old(header), sendGzip)
    {
      if sendGzip {
        header := Set(header, ContentEncodingKey, ContentEncodingGzip);
      }
    }

    /**
     * sendStatusCodeAsJSON. Headers first, then the status line, then the
     * body exactly once, then one completion log entry. An absent message is
     * replaced by withCode's default, in the body and in the context.
     */
    method SendStatusCodeAsJSON(tlsMode: bool, withCode: int -> string)
      modifies this`header, this`message, this`emitted
      ensures header == StatusHeaders(old(header), tlsMode, xRequestId, sendGzip)
      ensures message == ResponseMessage(old(message), statusCode, withCode)
      ensures emitted == old(emitted) + [
        WroteHeader(statusCode, header),
        WroteBody(EncodeBody(StatusCodeResponse(statusCode, message, xRequestId), sendGzip)),
        LoggedRoundtrip(statusCode, xRequestId)]
    {
      WriteStatusHeaders(tlsMode);
      WriteStatusResponse(withCode);
    }

    /** The header part of sendStatusCodeAsJSON: standard headers, content type, content encoding. */
    method WriteStatusHeaders(tlsMode: bool)
      modifies this`header
      ensures header == StatusHeaders(old(header), tlsMode, xRequestId, sendGzip)
    {
      WriteStandardResponseHeaders(tlsMode);
      WriteContentTypeHeader();
      WriteContentEncodingHeader();
    }

    /** The rest of sendStatusCodeAsJSON: status line, message defaulting, body, log entry. */
    method WriteStatusResponse(withCode: int -> string)
      modifies this`message, this`emitted
      ensures message == ResponseMessage(old(message), statusCode, withCode)
      ensures emitted == old(emitted) + [
        WroteHeader(statusCode, header),
        WroteBody(EncodeBody(StatusCodeResponse(statusCode, message, xRequestId), sendGzip)),
        LoggedRoundtrip(statusCode, xRequestId)]
    {
      emitted := emitted + [WroteHeader(statusCode, header)];

      var response := StatusCodeResponse(statusCode, message, xRequestId);
      if |message| == 0 || message == "none" {
        response := response.(message := withCode(statusCode));
        message := response.message;
      }

      if sendGzip {
        emitted := emitted + [WroteBody(Gzip(Json(response)))];
      } else {
        emitted := emitted + [WroteBody(Json(response))];
      }

      emitted := emitted + [LoggedRoundtrip(statusCode, xRequestId)];
    }
  }
}
