# Jabba reverse proxy: dispatch and response core

Jabba is a small HTTP reverse proxy. This project models its request-dispatch
and response core in Dafny and proves what that core promises:

- **Dispatcher** (`ProxyHandler`, from `src/github.com/simonmittag/babyjabba/server/proxyhandler.go`): every request first gets a
  correlation identifier `XR-<server id>-<uuid>` under `X-REQUEST-ID`,
  replacing any value the client sent under any spelling of that header. Then the route table is scanned in
  order. The first route whose path is a prefix of the request target wins.
  A mapped route is forwarded (status 200), an unmapped one gets 503, and no
  match gets 404. Exactly one reply is written.
- **Listener parameters** (`Listener`, from `server.go`): the timeouts are
  64-bit nanosecond durations that wrap on overflow as Go's `time.Duration`
  does. The write timeout is the round-trip timeout plus one second. The
  address is `:` followed by the port in decimal. The request multiplexer
  gets one about-handler registration per `AboutJabba` route, in table
  order, and then `/` for the proxy handler. The multiplexer refuses an
  empty or repeated pattern; the model says exactly when that happens.
- **Response writer** (`Response`, from `server.go`): the standard headers
  are written over the response's header map, one `Header.Set` per field. HSTS is written exactly in TLS
  mode, and every key the writer does not name is left alone. The JSON status
  response carries the code, the message and the correlation identifier. An
  empty or `"none"` message is replaced by the code's default, in the body
  and in the proxy context. The body is compressed when gzip was negotiated.
  The writes come in a fixed order: headers, status, body once, one
  completion log entry.
- **TLS policy** (`TlsPolicy`, from `server.go`): TLS 1.2 as the floor, the
  curves P-521, P-384 and P-256 in that order, and server-side suite choice.
  There are six cipher suites: three TLS 1.3 AEAD suites, two ECDHE-RSA GCM
  suites, and the one CBC suite last. Suite and curve numbers are those of the
  IANA TLS registries. A certificate with strictly less than 30 days left is
  reported at warning severity, otherwise at debug severity. A certificate
  that cannot be parsed ends the process.

`Decimal` models `strconv.Itoa` and proves it can be read back. `GoInts`
holds Go's 64-bit integers and their wrap-around. `Routing` holds the route
types the modules share. `Http` models net/http's header map: `Header.Set`
stores a value under the canonical form of its key, so every spelling of a
key that differs only in letter case reads the same entry. The canonical form
puts the first letter and every letter after a `-` in upper case and the rest
in lower case. A key that holds a character outside the header-token
alphabet is stored as written. `Cache-control:` is such a key, because of its
colon.

Notes on what the code does:

- The HSTS header is only ever written, never removed. On plaintext, a value
  already in the header map stays. So "HSTS iff TLS mode" holds for a header
  map that had no HSTS before (`Response.HstsIffTlsMode`).
- The forwarding path writes status 200 unconditionally. There is no
  gateway-error status for a failed upstream.
- The fatal-level log call in the TLS recovery handler ends the process with
  status 1 (the logging library exits on a fatal entry). The `os.Exit(-1)`
  after it is never reached.
- Duration arithmetic wraps on overflow instead of being an exact sum.

## Model

| member | source | states |
|---|---|---|
| GoInts.Wrap64 | server.go:55-58 | A Duration product is wrapped into 64 bits. It is unchanged when it fits and equal to the exact value modulo 2^64 otherwise. |
| GoInts.WrapSum | server.go:57 | Adding to a wrapped duration wraps to the same value as adding first. |
| Listener.Seconds | server.go:55-58 | time.Second times n seconds is n * 1e9 modulo 2^64, and exactly that when n is within the Duration range in seconds. |
| Listener.ListenerParams | server.go:54-73 | Both read timeouts equal the configured read timeout. The write timeout is the round-trip timeout plus one second, the idle timeout the configured idle timeout. Each is exact when it fits in 64 bits and equal modulo 2^64 otherwise. The address is ':' followed by digits that parse back to the port. |
| Listener.GraceFacts | server.go:56-57 | The round-trip duration plus one second of grace wraps to (seconds + 1) * 1e9 modulo 2^64, and is exactly that when it fits. |
| Decimal.Itoa | server.go:67 | The rendering is non-empty: all digits for a non-negative integer, a '-' followed by digits for a negative one. |
| Decimal.ItoaRoundTrip | server.go:67 | Parsing the decimal rendering of any integer gives the integer back. |
| Decimal.ItoaInjective | server.go:67 | Distinct ports give distinct address strings. |
| Decimal.NatToStringValue | server.go:67 | The digits written for a natural number have that number as their value. |
| Listener.ServeMux.Handle | server.go:103-107 | A registration is accepted exactly when its pattern is non-empty and not registered before; it is then appended, otherwise nothing changes. |
| Listener.AboutRegistrations | server.go:101-106 | The table loop registers at most one pattern per route, always with the about handler. |
| Listener.HandlerPlan | server.go:101-107 | The registration list ends with '/' for the proxy handler, and every registration before it is for the about handler. |
| Listener.MapPathsToHandler | server.go:96-111 | The multiplexer ends up with the about routes' paths in table order, then '/' for the proxy handler, and nothing else. Registration fails exactly when this list has an empty or repeated pattern. |
| Listener.AboutRegistrationsSound | server.go:101-105 | Every about registration is the about handler at the path of some AboutJabba route. |
| Listener.AboutRegistrationsComplete | server.go:101-105 | Every AboutJabba route is registered with the about handler at its own path. |
| Listener.AboutRegistrationsAppend | server.go:101-106 | Registrations follow table order: those for a concatenated table are those of the first part followed by those of the second. |
| Listener.RefusedRegistration | server.go:101-107 | When the multiplexer refuses an about route, the whole registration list is not registrable. |
| Http.CanonicalKey | server.go:129-139 | The stored key has the length of the given key and the same letters up to case. A token key comes out as a token with upper case at the start and after each '-', lower case elsewhere; any other key is kept as written. |
| Http.CanonicalKeyIdempotent | server.go:129-139 | A stored key is its own canonical form. |
| Http.CanonicalKeyIgnoresCase | src/github.com/simonmittag/babyjabba/server/proxyhandler.go:68 | Two token keys that differ only in letter case are stored under the same key. |
| Http.ApartKeysDiffer | server.go:129-139 | Keys of different length, or whose first letters differ ignoring case, are stored under different keys. |
| Http.Set | server.go:129-139 | Afterwards the key, in any spelling with the same canonical form, reads exactly the one value. Every other stored key is unchanged, the stored keys gain the canonical key, and a map of canonical keys stays one. |
| Http.SetAll | server.go:129-139 | Setting fields in order changes only the stored keys of those fields, adds exactly those keys, and keeps a map canonical. |
| Http.SetAllReads | server.go:129-139 | A field that no later field overwrites reads back its single value after the whole list is set. |
| Http.SetAllIdempotent | server.go:129-139 | Setting the same fields a second time changes nothing. |
| Http.SetAllAppend | server.go:129-139 | Setting two lists one after the other is setting their concatenation. |
| Response.StatusFieldsDistinct | server.go:197-200 | No two of the fields a status response sets share a stored key, in TLS mode or not, compressed or not. |
| Response.StandardHeadersWritten | server.go:126-140 | Server, the cache header (keyed 'Cache-control:'), X-xss-protection, X-content-type-options, X-frame-options and X-REQUEST-ID each end with their single fixed value, and so does HSTS in TLS mode. Every other stored key is unchanged. The stored keys are the old ones plus the standard ones, and a canonical map stays canonical. |
| Response.Proxy.WriteStandardResponseHeaders | server.go:126-140 | The header map becomes the standard headers written over the old map, using the context's correlation identifier. |
| Response.HstsIffTlsMode | server.go:131-134 | On a map without HSTS, HSTS is present afterwards if and only if the runtime is in TLS mode. |
| Response.StandardHeadersIdempotent | server.go:126-140 | Writing the standard headers twice gives the same map as writing them once. |
| Response.EncodingHeader | server.go:200 | When compressing, Content-Encoding reads exactly gzip; otherwise the map is unchanged; no other stored key changes. |
| Response.Proxy.WriteContentTypeHeader | server.go:199 | Content-Type is set to application/json over the old map. |
| Response.Proxy.WriteContentEncodingHeader | server.go:200 | The header map becomes the content-encoding step over the old map. |
| Response.StatusHeadersInOrder | server.go:197-200 | The standard headers, then the content type, then the content encoding is the same as setting all status fields in order. |
| Response.StatusHeadersWritten | server.go:197-200 | Every standard header (including the cache, XSS, content-type-options and frame headers), Content-Type application/json and, when compressing, Content-Encoding gzip each end with their single value. Every other stored key is unchanged, the stored keys are the old ones plus the status ones, and a canonical map stays canonical. |
| Response.EncodingIffGzip | server.go:200 | On a map without a content encoding, one is present afterwards if and only if the body is compressed. |
| Response.Proxy.WriteStatusHeaders | server.go:197-200 | The header map becomes the status headers over the old map: standard headers, content type, content encoding, in that order. |
| Response.ResponseMessage | server.go:210-213 | An empty or "none" message becomes the code's default; any other message passes through unchanged. |
| Response.ResponseMessageIdempotent | server.go:210-213 | A defaulted message is not defaulted again, as long as the default itself is present. |
| Response.EncodeBody | server.go:215-219 | Reading the written body, decompressing it when it was compressed, gives back exactly the status response. This is the same result as reading the uncompressed body. |
| Response.Proxy.WriteStatusResponse | server.go:202-221 | The context's message is the defaulted one. The writes are, in order: the status with the current headers, the body holding (code, message, request ID) compressed iff gzip, and one completion log entry. |
| Response.Proxy.SendStatusCodeAsJSON | server.go:197-222 | The status headers are set. The context's message is the defaulted one. The writes are, in order: the status with the final headers, the body holding (code, message, request ID), once and compressed iff gzip, and one completion log entry. |
| TlsPolicy.PolicyFor | server.go:159-176 | The floor is TLS 1.2. Curves are P-521, P-384, P-256, in strictly decreasing size. The server prefers its own suites. There are six distinct suites: three TLS 1.3 AEAD, then two ECDHE-RSA AEAD, then the only CBC suite last. The leaf is the configured certificate. |
| TlsPolicy.Until | server.go:179 | The remaining validity is not-after minus now, saturated to the Duration range. |
| TlsPolicy.ExpirySeverity | server.go:179-188 | The report is a warning iff strictly less than 30 days of validity are left; saturation does not move the boundary. |
| TlsPolicy.ExpiryExamples | server.go:180-188 | 10 days and 30 days minus 1 ns warn; exactly 30 days and 90 days do not. |
| TlsPolicy.TlsConfig | server.go:142-195 | A parse failure ends the process with status 1. Otherwise the result is the fixed policy around the leaf, with warning severity iff under 30 days remain. |
| ProxyHandler.XRequestId | src/github.com/simonmittag/babyjabba/server/proxyhandler.go:72-75 | The identifier is "XR-", the server ID, "-", then the uuid, which can be read back from the end. |
| ProxyHandler.XRequestIdInjective | src/github.com/simonmittag/babyjabba/server/proxyhandler.go:72-75 | Distinct uuids give distinct correlation identifiers. |
| ProxyHandler.DecorateRequest | src/github.com/simonmittag/babyjabba/server/proxyhandler.go:67-70 | X-REQUEST-ID, in any spelling with the same canonical form, ends with the single value of the new identifier. Every other stored key is unchanged, and a canonical map stays canonical. |
| ProxyHandler.SpoofedIdReplaced | src/github.com/simonmittag/babyjabba/server/proxyhandler.go:67-70 | A client value sent under any case variant of X-REQUEST-ID (such as x-request-id) is replaced: that spelling reads back only the new identifier. |
| ProxyHandler.MatchIsAnchoredOccurrence | src/github.com/simonmittag/babyjabba/server/proxyhandler.go:35-38 | A route matches iff its path occurs in the request target at position 0, which is what the '^' anchor asks of a literal path. |
| ProxyHandler.MatchSurvivesExtension | src/github.com/simonmittag/babyjabba/server/proxyhandler.go:35-38 | A target that matches a route still matches it when extended. |
| ProxyHandler.LongerPathNeverMatches | src/github.com/simonmittag/babyjabba/server/proxyhandler.go:35-38 | A path longer than the request target never matches it. |
| ProxyHandler.ShadowedRouteNeverWins | src/github.com/simonmittag/babyjabba/server/proxyhandler.go:18-28 | A route whose path extends the path of an earlier route is never the first match. |
| ProxyHandler.FirstMatch | src/github.com/simonmittag/babyjabba/server/proxyhandler.go:18-29 | The result is the lowest index whose route matches, or none exactly when no route matches. |
| ProxyHandler.FirstMatchUnique | src/github.com/simonmittag/babyjabba/server/proxyhandler.go:18-28 | At most one index is the first match. |
| ProxyHandler.FirstMatchIs | src/github.com/simonmittag/babyjabba/server/proxyhandler.go:18-28 | Any index that matches with no earlier match is the one FirstMatch returns. |
| ProxyHandler.Dispatch | src/github.com/simonmittag/babyjabba/server/proxyhandler.go:15-33 | The outcome is NotFound iff no route matches, Unavailable iff the first match is unmapped, and otherwise Forward with the first match's upstream and label. |
| ProxyHandler.ReplyFor | src/github.com/simonmittag/babyjabba/server/proxyhandler.go:20-31 | Only forwarding goes upstream, to the outcome's upstream and label. It answers 200, an unmapped match 503 and no match 404, and each code belongs to exactly one outcome. |
| ProxyHandler.StatusForTarget | src/github.com/simonmittag/babyjabba/server/proxyhandler.go:15-33 | A request target gets 404 iff no route matches, 503 iff the first match has no upstream, and 200 iff the first match has one. |
| ProxyHandler.HandleUpstreamRequest | src/github.com/simonmittag/babyjabba/server/proxyhandler.go:40-65 | The upstream leg appends one reply from that upstream and label, with status 200. |
| ProxyHandler.SendStatusCodeAsJSON | src/github.com/simonmittag/babyjabba/server/proxyhandler.go:25-31 | A status reply with the given code is appended. |
| ProxyHandler.ScanRoutes | src/github.com/simonmittag/babyjabba/server/proxyhandler.go:16-32 | Exactly one reply, the one for the dispatch outcome, is appended. The routes examined are those up to and including the first match, or all routes when none match. |
| ProxyHandler.Handle | src/github.com/simonmittag/babyjabba/server/proxyhandler.go:15-33 | The request is decorated, and exactly one reply, the one for the dispatch outcome, is appended. The routes examined are those up to and including the first match, or all routes when none match. |

## Left out

- Serving: ListenAndServe and ListenAndServeTLS, the boot WaitGroup, the blocking serve loop and the fatal exit on listen failure (server.go:75-93). These are socket I/O and concurrency; only the derived parameters are modelled.
- initStats and stats (server.go:120-123): a background goroutine.
- initUserAgent and the HTTP client (server.go:113-118): outbound I/O.
- Configuration reading, resource-name rewriting, route compilation, sorting and the default policy (server.go:38-46): those functions are not part of this model. The route table is taken as given.
- isTLSMode is not part of this model. Its value is a parameter of the header writer.
- Certificate parsing (tls.X509KeyPair, x509.ParseCertificate) and the panic and recovery: the parse outcome is an input, Some(leaf) or None.
- The clock: "now" and the certificate's not-after are integer nanoseconds.
- Logging: the zerolog events, their fields and durafmt formatting. The completion log is recorded as one event with code and identifier; the TLS report as its severity.
- Exit status 1 on TLS failure assumes fatal-level logging is enabled. With the logger disabled at that level the process would exit with status -1.
- Gzip and AsJSON are symbolic: a body is a JSON value or the compression of a body. The withCode message table is not part of this model and is a total function parameter.
- writeContentEncodingHeader's body is not among the modelled files. The model assumes it sets Content-Encoding: gzip exactly when compressing and otherwise leaves the map alone.
- Regular-expression matching: route paths are literal prefixes. Paths holding regular-expression metacharacters are outside the model, and so is the case where a path fails to compile, which the source treats as no match.
- uuid.NewRandom: the uuid is a parameter. Uniqueness is reduced to injectivity of the identifier format (ProxyHandler.XRequestIdInjective).
- Header maps that net/http builds hold only canonical keys; the model states that Set keeps such a map canonical, but a map given to it is not required to be canonical. Header.Add, Del and multi-valued headers are not modelled.
- ID is modelled at its initial value "unknown". The server package's XRequestID constant is not part of this model; it is taken to be the same name as the handler's X-REQUEST-ID.
- route.mapUpstream is not part of this model: a route carries its resolved binding.
- The handler package's own sendStatusCodeAsJSON and writeStandardResponseHeaders are not part of this model. They are reduced to "reply with this code". handleUpstreamRequest's body read, placeholder response text and logs are reduced to "reply from this upstream with 200".
- http.ServeMux is modelled by its registration rules only: an empty or repeated pattern is refused. How it later picks a handler for a request is not modelled.
- ProxyHandler.Handle: decoration happens before the route scan in the method body; the contract states the final header, not the order of the two steps.
