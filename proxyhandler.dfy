/**
 * The request dispatcher: stamp a correlation identifier on the request,
 * scan the route table in order, and either forward to the first matching
 * route's upstream, answer 503 when that route has no upstream, or answer
 * 404 when no route matches.
 */
module ProxyHandler {
  import opened Wrappers
  import opened Http
  import opened Routing

  /** The correlation identifier for a request whose random component is uuid. */
  function XRequestId(uuid: string): (id: string)
    ensures |id| == 4 + |ServerId| + |uuid|
    ensures id[..3] == "XR-" && id[3..3 + |ServerId|] == ServerId && id[3 + |ServerId|] == '-'
    ensures id[4 + |ServerId|..] == uuid
  {
    "XR-" + ServerId + "-" + uuid
  }

  /** Distinct random components give distinct correlation identifiers. */
  lemma XRequestIdInjective(u: string, v: string)
    requires XRequestId(u) == XRequestId(v)
    ensures u == v
  {
  }

  /** An inbound request: its raw request target and its header map. */
  class Request {
    const requestURI: string
    var header: Header

    constructor (requestURI: string, header: Header)
      ensures this.requestURI == requestURI && this.header == header
    {
      this.requestURI := requestURI;
      this.header := header;
    }
  }

  /** What the handler sends downstream for one request. */
  datatype Reply =
    | UpstreamReply(upstream: Upstream, upstreamLabel: string, status: int)
    | StatusReply(code: int)

  /** The downstream response, as the ordered list of replies written to it. */
  class ResponseWriter {
    var replies: seq<Reply>

    constructor ()
      ensures replies == []
    {
      replies := [];
    }
  }

  /**
   * Stamps the correlation identifier on the request, replacing whatever
   * value the client sent under any spelling of that header; every other
   * stored key stays, and a map of canonical keys stays one.
   */
  method DecorateRequest(r: Request, uuid: string)
    modifies r
    ensures r.header == Set(old(r.header), XRequestIdHeader, XRequestId(uuid))
    ensures HasSingle(r.header, XRequestIdHeader, XRequestId(uuid))
    ensures forall k :: k != CanonicalKey(XRequestIdHeader) ==> SameAt(old(r.header), r.header, k)
    ensures CanonicalKeys(old(r.header)) ==> CanonicalKeys(r.header)
  {
    r.header := Set(r.header, XRequestIdHeader, XRequestId(uuid));
  }

  /**
   * A client's own spelling of the correlation header (any mix of upper and
   * lower case, such as "x-request-id") reads back the stamped identifier
   * after decoration, so no client value survives under it.
   */
  lemma SpoofedIdReplaced(h: Header, key: string, uuid: string)
    requires IsToken(key) && |key| == |XRequestIdHeader|
    requires forall i :: 0 <= i < |key| ==> ToLower(key[i]) == ToLower(XRequestIdHeader[i])
    ensures Get(Set(h, XRequestIdHeader, XRequestId(uuid)), key) == [XRequestId(uuid)]
  {
    assert IsToken(XRequestIdHeader);
    CanonicalKeyIgnoresCase(key, XRequestIdHeader);
  }

  /**
   * A route matches when its path, anchored at the start, is a prefix of the
   * request target. Paths are read as literal text.
   */
  predicate MatchRouteInURI(route: Route, requestURI: string) {
    route.path <= requestURI
  }

  /** The path occurs in the request target starting at position p. */
  predicate OccursAt(path: string, requestURI: string, p: nat) {
    p + |path| <= |requestURI| && forall k :: 0 <= k < |path| ==> requestURI[p + k] == path[k]
  }

  /**
   * The anchor '^' restricts the search for the path to position 0: a route
   * matches exactly when its path occurs at the start of the target.
   */
  lemma MatchIsAnchoredOccurrence(route: Route, requestURI: string)
    ensures MatchRouteInURI(route, requestURI) <==> OccursAt(route.path, requestURI, 0)
  {
    if OccursAt(route.path, requestURI, 0) {
      assert requestURI[..|route.path|] == route.path;
    }
  }

  /** A match survives extending the request target, so every longer target under a route's path matches it. */
  lemma MatchSurvivesExtension(route: Route, requestURI: string, suffix: string)
    requires MatchRouteInURI(route, requestURI)
    ensures MatchRouteInURI(route, requestURI + suffix)
  {
    assert (requestURI + suffix)[..|route.path|] == requestURI[..|route.path|];
  }

  /** A path longer than the request target never matches it. */
  lemma LongerPathNeverMatches(route: Route, requestURI: string)
    requires |route.path| > |requestURI|
    ensures !MatchRouteInURI(route, requestURI)
  {
  }

  /**
   * A route is shadowed by an earlier route whose path is a prefix of its
   * own: whenever the later one matches, the earlier one matched first, so
   * the later route never wins.
   */
  lemma ShadowedRouteNeverWins(routes: seq<Route>, requestURI: string, i: nat, j: nat)
    requires i < j < |routes| && routes[i].path <= routes[j].path
    ensures !IsFirstMatch(routes, requestURI, j)
  {
    if MatchRouteInURI(routes[j], requestURI) {
      assert requestURI[..|routes[i].path|] == routes[j].path[..|routes[i].path|];
      assert MatchRouteInURI(routes[i], requestURI);
    }
  }

  /** Route i matches the request target and no route before it does. */
  predicate IsFirstMatch(routes: seq<Route>, requestURI: string, i: int) {
    && 0 <= i < |routes|
    && MatchRouteInURI(routes[i], requestURI)
    && forall j :: 0 <= j < i ==> !MatchRouteInURI(routes[j], requestURI)
  }

  /** The index of the route that wins for the request target, if any. */
  function FirstMatch(routes: seq<Route>, requestURI: string): (r: Option<nat>)
    ensures r.Some? ==> IsFirstMatch(routes, requestURI, r.value)
    ensures r.None? <==> forall j :: 0 <= j < |routes| ==> !MatchRouteInURI(routes[j], requestURI)
  {
    if routes == [] then None
    else if MatchRouteInURI(routes[0], requestURI) then Some(0)
    else match FirstMatch(routes[1..], requestURI)
      case None => None
      case Some(k) => Some(k + 1)
  }

  /** At most one route is the first match. */
  lemma FirstMatchUnique(routes: seq<Route>, requestURI: string, i: int, k: int)
    requires IsFirstMatch(routes, requestURI, i) && IsFirstMatch(routes, requestURI, k)
    ensures i == k
  {
  }

  /** The first match found by scanning is the one FirstMatch names. */
  lemma FirstMatchIs(routes: seq<Route>, requestURI: string, i: int)
    requires IsFirstMatch(routes, requestURI, i)
    ensures FirstMatch(routes, requestURI) == Some(i)
  {
  }

  /** The three ways a request can be handled. */
  datatype Outcome = Forward(upstream: Upstream, upstreamLabel: string) | Unavailable | NotFound

  /** How the request target is handled under the route table. */
  function Dispatch(routes: seq<Route>, requestURI: string): (o: Outcome)
    ensures o.NotFound? <==> forall j :: 0 <= j < |routes| ==> !MatchRouteInURI(routes[j], requestURI)
    ensures o.Unavailable? <==>
      exists i :: IsFirstMatch(routes, requestURI, i) && routes[i].binding == Unmapped
    ensures o.Forward? ==>
      exists i :: IsFirstMatch(routes, requestURI, i) && routes[i].binding == Mapped(o.upstream, o.upstreamLabel)
  {
    match FirstMatch(routes, requestURI)
    case None => NotFound
    case Some(i) =>
      match routes[i].binding
      case Mapped(upstream, upstreamLabel) => Forward(upstream, upstreamLabel)
      case Unmapped =>
        assert IsFirstMatch(routes, requestURI, i);
        Unavailable
  }

  /** The status code a reply sends downstream. */
  function StatusCode(r: Reply): int {
    match r
    case UpstreamReply(_, _, status) => status
    case StatusReply(code) => code
  }

  /**
   * The reply written downstream for an outcome. Only forwarding goes
   * upstream, to the route's own upstream and label, and it answers 200; an
   * unmapped match answers 503 and no match 404, so each code belongs to
   * exactly one outcome.
   */
  function ReplyFor(o: Outcome): (r: Reply)
    ensures r.UpstreamReply? <==> o.Forward?
    ensures r.UpstreamReply? ==> r.upstream == o.upstream && r.upstreamLabel == o.upstreamLabel
    ensures StatusCode(r) == 200 <==> o.Forward?
    ensures StatusCode(r) == 503 <==> o.Unavailable?
    ensures StatusCode(r) == 404 <==> o.NotFound?
  {
    match o
    case Forward(upstream, upstreamLabel) => UpstreamReply(upstream, upstreamLabel, 200)
    case Unavailable => StatusReply(503)
    case NotFound => StatusReply(404)
  }

  /**
   * The status a request target receives under a route table: 404 exactly
   * when no route matches, 503 exactly when the first match has no
   * upstream, and 200 exactly when the first match has one.
   */
  lemma StatusForTarget(routes: seq<Route>, requestURI: string)
    ensures StatusCode(ReplyFor(Dispatch(routes, requestURI))) == 404 <==>
      forall j :: 0 <= j < |routes| ==> !MatchRouteInURI(routes[j], requestURI)
    ensures StatusCode(ReplyFor(Dispatch(routes, requestURI))) == 503 <==>
      exists i :: IsFirstMatch(routes, requestURI, i) && routes[i].binding == Unmapped
    ensures StatusCode(ReplyFor(Dispatch(routes, requestURI))) == 200 <==>
      exists i :: IsFirstMatch(routes, requestURI, i) && routes[i].binding.Mapped?
  {
    var o := Dispatch(routes, requestURI);
    match FirstMatch(routes, requestURI)
    case None =>
    case Some(i) =>
      forall k | IsFirstMatch(routes, requestURI, k)
        ensures k == i
      {
        FirstMatchUnique(routes, requestURI, i, k);
      }
  }

  /** The upstream leg, reduced to its outcome: a reply from that upstream with status 200. */
  method HandleUpstreamRequest(w: ResponseWriter, upstream: Upstream, upstreamLabel: string)
    modifies w
    ensures w.replies == old(w.replies) + [UpstreamReply(upstream, upstreamLabel, 200)]
  {
    w.replies := w.replies + [UpstreamReply(upstream, upstreamLabel, 200)];
  }

  /** A synthesized JSON status response with the given code. */
  method SendStatusCodeAsJSON(w: ResponseWriter, code: int)
    modifies w
    ensures w.replies == old(w.replies) + [StatusReply(code)]
  {
    w.replies := w.replies + [StatusReply(code)];
  }

  /**
   * proxyHandler. The request is decorated first; then routes are examined in
   * table order until one matches, and exactly one reply is written. The
   * ghost result counts the routes examined: none after the winning one.
   */
  method Handle(routes: seq<Route>, w: ResponseWriter, r: Request, uuid: string) returns (ghost consulted: nat)
    modifies w, r
    ensures r.header == Set(old(r.header), XRequestIdHeader, XRequestId(uuid))
    ensures w.replies == old(w.replies) + [ReplyFor(Dispatch(routes, r.requestURI))]
    ensures consulted == match FirstMatch(routes, r.requestURI)
                         case Some(i) => i + 1
                         case None => |routes|
  {
    DecorateRequest(r, uuid);
    consulted := ScanRoutes(routes, w, r.requestURI);
  }

  /** The route loop of proxyHandler, after decoration: one reply, for the first match or for none. */
  method ScanRoutes(routes: seq<Route>, w: ResponseWriter, requestURI: string) returns (ghost consulted: nat)
    modifies w
    ensures w.replies == old(w.replies) + [ReplyFor(Dispatch(routes, requestURI))]
    ensures consulted == match FirstMatch(routes, requestURI)
                         case Some(i) => i + 1
                         case None => |routes|
  {
    var matched := false;
    var i := 0;
    consulted := 0;
    while i < |routes|
      invariant 0 <= i <= |routes|
      invariant !matched && consulted == i
      invariant w.replies == old(w.replies)
      invariant forall j :: 0 <= j < i ==> !MatchRouteInURI(routes[j], requestURI)
    {
      var route := routes[i];
      consulted := consulted + 1;
      matched := MatchRouteInURI(route, requestURI);
      if matched {
        FirstMatchIs(routes, requestURI, i);
        match route.binding {
          case Mapped(upstream, upstreamLabel) =>
            HandleUpstreamRequest(w, upstream, upstreamLabel);
          case Unmapped =>
            // matched, but no upstream: a configuration error in the server
            SendStatusCodeAsJSON(w, 503);
        }
        break;
      }
      i := i + 1;
    }
    if !matched {
      SendStatusCodeAsJSON(w, 404);
    }
  }
}
