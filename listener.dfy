/**
 * What the server derives from its downstream configuration before it
 * listens: the listen address, the connection timeouts, and the request
 * multiplexer with its handler registrations.
 */
module Listener {
  import opened Wrappers
  import opened Routing
  import opened GoInts
  import Decimal

  /** Nanoseconds in a second (time.Second). */
  const Second: int := 1_000_000_000

  /** time.Second * time.Duration(n): a duration of n seconds, wrapping on overflow. */
  function Seconds(n: Int64): (d: Int64)
    ensures Congruent64(d, n * Second)
    ensures -MaxSeconds <= n <= MaxSeconds ==> d == n * Second
  {
    assert MaxSeconds == 9_223_372_036;
    Wrap64(n * Second)
  }

  /** The largest number of seconds whose duration fits in an Int64. */
  const MaxSeconds: int := MaxInt64 / Second

  /** The downstream part of the configuration that the listener reads. */
  datatype DownstreamConfig = DownstreamConfig(
    readTimeoutSeconds: Int64,
    roundTripTimeoutSeconds: Int64,
    idleTimeoutSeconds: Int64,
    port: Int64)

  /** The listener parameters of http.Server; timeouts in nanoseconds. */
  datatype ServerParams = ServerParams(
    addr: string,
    readHeaderTimeout: Int64,
    readTimeout: Int64,
    writeTimeout: Int64,
    idleTimeout: Int64)

  /**
   * The parameters startListening builds. Both read timeouts are the
   * configured read timeout; the write timeout is the round-trip timeout plus
   * one second of grace; the address is ':' and the port in decimal.
   */
  function ListenerParams(d: DownstreamConfig): (p: ServerParams)
    ensures p.readHeaderTimeout == p.readTimeout
    ensures Congruent64(p.readTimeout, d.readTimeoutSeconds * Second)
    ensures Congruent64(p.writeTimeout, (d.roundTripTimeoutSeconds + 1) * Second)
    ensures Congruent64(p.idleTimeout, d.idleTimeoutSeconds * Second)
    ensures -MaxSeconds <= d.readTimeoutSeconds <= MaxSeconds ==>
      p.readTimeout == d.readTimeoutSeconds * Second
    ensures -MaxSeconds <= d.roundTripTimeoutSeconds < MaxSeconds ==>
      p.writeTimeout == (d.roundTripTimeoutSeconds + 1) * Second
    ensures -MaxSeconds <= d.idleTimeoutSeconds <= MaxSeconds ==>
      p.idleTimeout == d.idleTimeoutSeconds * Second
    ensures |p.addr| > 1 && p.addr[0] == ':' && Decimal.ParseInt(p.addr[1..]) == Some(d.port)
  {
    var readTimeout := Seconds(d.readTimeoutSeconds);
    var roundTripTimeout := Seconds(d.roundTripTimeoutSeconds);
    var roundTripTimeoutWithGrace := Wrap64(roundTripTimeout + Second * 1);
    var idleTimeout := Seconds(d.idleTimeoutSeconds);
    var addr := ":" + Decimal.Itoa(d.port);
    GraceFacts(d.roundTripTimeoutSeconds);
    AddressFacts(d.port);
    ServerParams(addr, readTimeout, readTimeout, roundTripTimeoutWithGrace, idleTimeout)
  }

  lemma GraceFacts(n: Int64)
    ensures Congruent64(Wrap64(Seconds(n) + Second * 1), (n + 1) * Second)
    ensures -MaxSeconds <= n < MaxSeconds ==> Wrap64(Seconds(n) + Second * 1) == (n + 1) * Second
  {
    WrapSum(n * Second, Second);
  }

  lemma AddressFacts(port: int)
    ensures var addr := ":" + Decimal.Itoa(port);
      |addr| > 1 && addr[0] == ':' && Decimal.ParseInt(addr[1..]) == Some(port)
  {
    Decimal.ItoaRoundTrip(port);
    var addr := ":" + Decimal.Itoa(port);
    assert addr[1..] == Decimal.Itoa(port);
  }

  /** The handlers the multiplexer can dispatch to. */
  datatype Handler = AboutHandlerFunc | ProxyHandlerFunc

  datatype Registration = Registration(pattern: string, handler: Handler)

  /** True when some registration already uses the pattern. */
  predicate Registered(regs: seq<Registration>, pattern: string) {
    exists i :: 0 <= i < |regs| && regs[i].pattern == pattern
  }

  /**
   * True when every registration in turn is accepted: its pattern is not
   * empty and no earlier registration uses it.
   */
  predicate Registrable(regs: seq<Registration>) {
    forall i :: 0 <= i < |regs| ==> regs[i].pattern != "" && !Registered(regs[..i], regs[i].pattern)
  }

  /**
   * http.ServeMux as a list of registrations in the order they were made.
   * Handle refuses (panics) on an empty pattern or on a pattern registered
   * before.
   */
  class ServeMux {
    var registrations: seq<Registration>

    ghost predicate Valid()
      reads this
    {
      Registrable(registrations)
    }

    constructor ()
      ensures Valid() && registrations == []
    {
      registrations := [];
    }

    method Handle(pattern: string, handler: Handler) returns (ok: bool)
      requires Valid()
      modifies this
      ensures Valid()
      ensures ok <==> pattern != "" && !Registered(old(registrations), pattern)
      ensures registrations == if ok then old(registrations) + [Registration(pattern, handler)]
                               else old(registrations)
    {
      ok := pattern != "" && !Registered(registrations, pattern);
      if ok {
        RegistrableSnoc(registrations, Registration(pattern, handler));
        registrations := registrations + [Registration(pattern, handler)];
      }
    }
  }

  /** Appending one registration keeps the list registrable exactly when that registration is accepted. */
  lemma RegistrableSnoc(regs: seq<Registration>, r: Registration)
    ensures Registrable(regs + [r]) <==>
      Registrable(regs) && r.pattern != "" && !Registered(regs, r.pattern)
  {
    var all := regs + [r];
    assert all[..|regs|] == regs;
    forall i | 0 <= i < |regs|
      ensures all[..i] == regs[..i] && all[i] == regs[i]
    {
    }
  }

  /** A registrable list has registrable prefixes. */
  lemma {:induction false} RegistrablePrefix(a: seq<Registration>, b: seq<Registration>)
    requires Registrable(a + b)
    ensures Registrable(a)
    decreases |b|
  {
    if b != [] {
      var last := b[|b| - 1];
      assert a + b == (a + b[..|b| - 1]) + [last];
      RegistrableSnoc(a + b[..|b| - 1], last);
      RegistrablePrefix(a, b[..|b| - 1]);
    } else {
      assert a + b == a;
    }
  }

  /** The about-handler registrations for a route table, in table order. */
  function AboutRegistrations(routes: seq<Route>): (regs: seq<Registration>)
    ensures |regs| <= |routes|
    ensures forall k :: 0 <= k < |regs| ==> regs[k].handler == AboutHandlerFunc
  {
    if routes == [] then []
    else
      var last := routes[|routes| - 1];
      AboutRegistrations(routes[..|routes| - 1]) +
        (if last.resource == AboutJabba then [Registration(last.path, AboutHandlerFunc)] else [])
  }

  /** Each registration is the about handler at the path of some AboutJabba route. */
  lemma {:induction false} AboutRegistrationsSound(routes: seq<Route>, k: nat)
    requires k < |AboutRegistrations(routes)|
    ensures AboutRegistrations(routes)[k].handler == AboutHandlerFunc
    ensures exists i ::
              0 <= i < |routes| && routes[i].resource == AboutJabba &&
              routes[i].path == AboutRegistrations(routes)[k].pattern
    decreases |routes|
  {
    var init := routes[..|routes| - 1];
    var last := routes[|routes| - 1];
    if k < |AboutRegistrations(init)| {
      AboutRegistrationsSound(init, k);
      var i :| 0 <= i < |init| && init[i].resource == AboutJabba && init[i].path == AboutRegistrations(init)[k].pattern;
      assert routes[i] == init[i];
    } else {
      assert routes[|routes| - 1] == last;
    }
  }

  /** Every AboutJabba route is registered with the about handler at its own path. */
  lemma {:induction false} AboutRegistrationsComplete(routes: seq<Route>, i: nat)
    requires i < |routes| && routes[i].resource == AboutJabba
    ensures Registration(routes[i].path, AboutHandlerFunc) in AboutRegistrations(routes)
    decreases |routes|
  {
    var init := routes[..|routes| - 1];
    if i < |init| {
      assert init[i] == routes[i];
      AboutRegistrationsComplete(init, i);
    }
  }

  /**
   * Registrations follow table order: the registrations for a table split in
   * two are those of the first part followed by those of the second.
   */
  lemma {:induction false} AboutRegistrationsAppend(a: seq<Route>, b: seq<Route>)
    ensures AboutRegistrations(a + b) == AboutRegistrations(a) + AboutRegistrations(b)
    decreases |b|
  {
    if b == [] {
      assert a + b == a;
    } else {
      var init := b[..|b| - 1];
      assert (a + b)[..|a + b| - 1] == a + init;
      assert (a + b)[|a + b| - 1] == b[|b| - 1];
      AboutRegistrationsAppend(a, init);
    }
  }

  /** All registrations mapPathsToHandler makes: the about routes, then "/" for the proxy. */
  function HandlerPlan(routes: seq<Route>): (plan: seq<Registration>)
    ensures |plan| > 0 && plan[|plan| - 1] == Registration("/", ProxyHandlerFunc)
    ensures forall k :: 0 <= k < |plan| - 1 ==> plan[k].handler == AboutHandlerFunc
  {
    AboutRegistrations(routes) + [Registration("/", ProxyHandlerFunc)]
  }

  /**
   * mapPathsToHandler. Every AboutJabba route is registered with the about
   * handler at its own path, in table order, and "/" with the proxy handler
   * last. The multiplexer panics on an empty or repeated pattern; ok is false
   * exactly when that happens.
   */
  method MapPathsToHandler(routes: seq<Route>) returns (mux: ServeMux, ok: bool)
    ensures fresh(mux) && mux.Valid()
    ensures ok <==> Registrable(HandlerPlan(routes))
    ensures ok ==> mux.registrations == HandlerPlan(routes)
  {
    mux := new ServeMux();
    var i := 0;
    while i < |routes|
      invariant 0 <= i <= |routes|
      invariant fresh(mux) && mux.Valid()
      invariant mux.registrations == AboutRegistrations(routes[..i])
    {
      var route := routes[i];
      AboutRegistrationsStep(routes, i);
      if route.resource == AboutJabba {
        ok := mux.Handle(route.path, AboutHandlerFunc);
        if !ok {
          RefusedRegistration(routes, i);
          return;
        }
      }
      i := i + 1;
    }
    assert routes[..i] == routes;
    RegistrableSnoc(mux.registrations, Registration("/", ProxyHandlerFunc));
    ok := mux.Handle("/", ProxyHandlerFunc);
  }

  /** One more route adds its registration, if any, at the end. */
  lemma AboutRegistrationsStep(routes: seq<Route>, i: nat)
    requires i < |routes|
    ensures AboutRegistrations(routes[..i + 1]) == AboutRegistrations(routes[..i]) +
      (if routes[i].resource == AboutJabba then [Registration(routes[i].path, AboutHandlerFunc)] else [])
  {
    AboutRegistrationsAppend(routes[..i], [routes[i]]);
    assert routes[..i] + [routes[i]] == routes[..i + 1];
  }

  /** When the multiplexer refuses an about route, the whole plan is not registrable. */
  lemma RefusedRegistration(routes: seq<Route>, i: nat)
    requires i < |routes| && routes[i].resource == AboutJabba
    requires routes[i].path == "" || Registered(AboutRegistrations(routes[..i]), routes[i].path)
    ensures !Registrable(HandlerPlan(routes))
  {
    var prefix := AboutRegistrations(routes[..i + 1]);
    AboutRegistrationsStep(routes, i);
    RegistrableSnoc(AboutRegistrations(routes[..i]), Registration(routes[i].path, AboutHandlerFunc));
    AboutRegistrationsAppend(routes[..i + 1], routes[i + 1..]);
    assert routes[..i + 1] + routes[i + 1..] == routes;
    assert HandlerPlan(routes) == prefix + (AboutRegistrations(routes[i + 1..]) + [Registration("/", ProxyHandlerFunc)]);
    RegistrablePrefixOf(prefix, AboutRegistrations(routes[i + 1..]) + [Registration("/", ProxyHandlerFunc)]);
  }

  /** A list whose prefix is not registrable is not registrable. */
  lemma RegistrablePrefixOf(a: seq<Registration>, b: seq<Registration>)
    requires !Registrable(a)
    ensures !Registrable(a + b)
  {
    if Registrable(a + b) {
      RegistrablePrefix(a, b);
    }
  }
}
